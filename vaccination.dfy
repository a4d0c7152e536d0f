/** The tetanus vaccination card of `components/VaccinationCalendar.tsx`: the dose
    list held in component state, the confirmation that marks one dose as given, the
    line shown for each dose and the name shown for the logged-in user. The date of
    the day (`new Date().toLocaleDateString()`) is a parameter. */
module Vaccination {
  import opened Options
  import opened Seqs
  import opened Strings

  datatype DoseStatus = Done | Pending | Scheduled

  datatype Dose = Dose(name: string, period: string, description: string, status: DoseStatus, date: string)

  /** The four doses the card starts with: VAT 1 given, VAT 2 due, VAT 3 and VAT 4
      planned. */
  function InitialSchedule(): (doses: seq<Dose>)
    ensures |doses| == 4
    ensures forall i :: 0 <= i < 4 ==> doses[i].name == "VAT " + [DigitChar(i + 1)]
    ensures doses[0].status == Done && doses[1].status == Pending
    ensures doses[2].status == Scheduled && doses[3].status == Scheduled
  {
    [ Dose("VAT 1", "Au premier contact", "Protection initiale contre le tétanos", Done, "12/03/2024"),
      Dose("VAT 2", "4 semaines après VAT1", "Renforcement immunitaire", Pending, "15/05/2024"),
      Dose("VAT 3", "6 mois après VAT2", "Protection durable", Scheduled, "15/11/2024"),
      Dose("VAT 4", "1 an après VAT3", "Rappel long terme", Scheduled, "15/11/2025") ]
  }

  predicate IsPending(d: Dose) {
    d.status == Pending
  }

  /** The number of doses due, each of which carries a confirmation button. */
  function PendingCount(doses: seq<Dose>): nat {
    |Filter(doses, IsPending)|
  }

  /** The card starts with exactly one dose due, VAT 2. */
  lemma OnePendingAtStart()
    ensures PendingCount(InitialSchedule()) == 1
    ensures forall i :: 0 <= i < 4 ==> (IsPending(InitialSchedule()[i]) <==> i == 1)
  {
    var s := InitialSchedule();
    assert s == s[..1] + [s[1]] + s[2..];
    FilterConcat(s[..1] + [s[1]], s[2..], IsPending);
    FilterConcat(s[..1], [s[1]], IsPending);
    FilterNoneKept(s[..1], IsPending);
    FilterNoneKept(s[2..], IsPending);
    FilterKeepsAll([s[1]], IsPending);
  }

  /** The status line of a dose. */
  function DisplayLine(d: Dose): (line: string)
    ensures d.status == Done ==> line == "Administré le " + d.date
    ensures d.status != Done ==> line == "Prévu le " + d.date
    ensures line[|line| - |d.date|..] == d.date
  {
    (if d.status == Done then "Administré le " else "Prévu le ") + d.date
  }

  /** The dose as `confirmDose` leaves it. */
  function Confirmed(d: Dose, today: string): (c: Dose)
    ensures c.status == Done && c.date == today
    ensures c.name == d.name && c.period == d.period && c.description == d.description
  {
    d.(status := Done, date := today)
  }

  function PatientNames(): map<string, string> {
    map["0991234567" := "Maman Sarah Masika", "0812345678" := "Maman Zawadi Neema"]
  }

  const UnknownPatient := "Patiente Inconnue"

  /** `patientDataMap[userId || ''] || 'Patiente Inconnue'`. */
  function PatientName(userId: Option<string>): (name: string)
    ensures userId.Some? && userId.value in PatientNames() ==> name == PatientNames()[userId.value]
    ensures name == UnknownPatient <==> userId.None? || userId.value !in PatientNames()
  {
    var key := userId.GetOr("");
    if key in PatientNames() && PatientNames()[key] != "" then PatientNames()[key] else UnknownPatient
  }

  /** A name of three space-separated words has their three first letters as
      initials. */
  lemma InitialsOfThreeWords(a: string, b: string, c: string)
    requires |a| > 0 && |b| > 0 && |c| > 0
    requires ' ' !in a && ' ' !in b && ' ' !in c
    ensures Initials(a + " " + b + " " + c) == [a[0], b[0], c[0]]
  {
    var words := [a, b, c];
    assert Join(words, ' ') == a + " " + b + " " + c by {
      assert Join(words[2..], ' ') == c;
      assert Join(words[1..], ' ') == b + [' '] + c;
    }
    InitialsOfWords(words);
  }

  /** The two test users are named; any other id, and no id, falls back. */
  lemma KnownPatientNames(userId: Option<string>)
    ensures PatientName(Some("0991234567")) == "Maman Sarah Masika"
    ensures PatientName(Some("0812345678")) == "Maman Zawadi Neema"
    ensures userId.None? || (userId.value != "0991234567" && userId.value != "0812345678")
            ==> PatientName(userId) == UnknownPatient
  {
  }

  /** The avatars of the two test users read "MSM" and "MZN". */
  lemma KnownPatientInitials()
    ensures Initials("Maman Sarah Masika") == "MSM"
    ensures Initials("Maman Zawadi Neema") == "MZN"
  {
    assert "Maman Sarah Masika" == "Maman" + " " + "Sarah" + " " + "Masika";
    InitialsOfThreeWords("Maman", "Sarah", "Masika");
    assert "Maman Zawadi Neema" == "Maman" + " " + "Zawadi" + " " + "Neema";
    InitialsOfThreeWords("Maman", "Zawadi", "Neema");
  }

  class VaccinationCard {
    var vaccines: seq<Dose>

    constructor ()
      ensures vaccines == InitialSchedule()
    {
      vaccines := InitialSchedule();
    }

    /** A dose carries the confirmation button only while it is due, which is next to
        a "Prévu le" line, never next to a given dose. */
    function Offered(i: int): (offered: bool)
      reads this
      ensures offered ==> 0 <= i < |vaccines| && DisplayLine(vaccines[i]) == "Prévu le " + vaccines[i].date
      ensures offered ==> vaccines[i].status != Done
    {
      0 <= i < |vaccines| && IsPending(vaccines[i])
    }

    /** `confirmDose(index)`: dose `index` is marked given today; the length and every
        other dose stay as they were, so no later planned dose becomes due. */
    method ConfirmDose(index: int, today: string)
      requires 0 <= index < |vaccines|
      modifies this
      ensures vaccines == old(vaccines)[index := Confirmed(old(vaccines)[index], today)]
      ensures DisplayLine(vaccines[index]) == "Administré le " + today
      ensures PendingCount(vaccines) == PendingCount(old(vaccines)) - (if old(Offered(index)) then 1 else 0)
    {
      var newVaccines := vaccines;
      FilterLengthAfterUpdate(newVaccines, IsPending, index, Confirmed(newVaccines[index], today));
      newVaccines := newVaccines[index := newVaccines[index].(status := Done)];
      newVaccines := newVaccines[index := newVaccines[index].(date := today)];
      vaccines := newVaccines;
    }
  }
}
