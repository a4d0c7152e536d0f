/** The local persistence shim of `services/dbMock.ts`. The browser key-value store
    holds one JSON array per key; here each key is a field holding the decoded array,
    or `None` when nothing is stored under the key. The clock (`new Date()`) and
    `Math.random()` are parameters of the methods that read them. */
module RecordStore {
  import opened Options
  import opened Types
  import opened Seqs
  import opened Strings

  function PatientKey(p: Patient): string { p.id }

  function PartographKey(g: Partograph): string { g.id }

  function ReferralKey(r: Referral): string { r.id }

  /** `data ? JSON.parse(data) : []`: an absent key reads as the empty array. */
  function Decode<T>(stored: Option<seq<T>>): (all: seq<T>)
    ensures stored.None? ==> all == []
    ensures stored.Some? ==> all == stored.value
  {
    stored.GetOr([])
  }

  // ---------------------------------------------------------------------------
  // patients

  /** `{ ...patient, updatedAt: now }`: the incoming patient, whatever `createdAt` it
      carries, with a new `updatedAt`. */
  function Touched(p: Patient, now: string): Patient {
    p.(meta := p.meta.(updatedAt := Some(now)))
  }

  /** `{ ...patient, createdAt: now, updatedAt: now }`. */
  function Created(p: Patient, now: string): Patient {
    p.(meta := p.meta.(createdAt := Some(now), updatedAt := Some(now)))
  }

  /** The patient array that `patients.save(p)` writes back, given the one it read. */
  function SavedPatients(all: seq<Patient>, p: Patient, now: string): (r: seq<Patient>)
    ensures |r| == |all| <==> exists j :: 0 <= j < |all| && all[j].id == p.id
    ensures |r| == |all| || |r| == |all| + 1
    ensures forall j :: 0 <= j < |all| && all[j].id != p.id ==> r[j] == all[j]
    ensures FindFirst(r, PatientKey, p.id).Some?
  {
    FindFirstAfterUpsert(all, PatientKey, p.id, Touched(p, now), Created(p, now));
    Upsert(all, PatientKey, p.id, Touched(p, now), Created(p, now))
  }

  /** Saving a patient whose id is stored replaces the first patient with that id and
      nothing else; the stored `createdAt` is dropped in favour of the incoming one. */
  lemma SaveExistingPatient(all: seq<Patient>, p: Patient, now: string)
    requires FirstIndex(all, PatientKey, p.id).Some?
    ensures var i := FirstIndex(all, PatientKey, p.id).value;
      var r := SavedPatients(all, p, now);
      && |r| == |all|
      && r[i] == p.(meta := r[i].meta)
      && r[i].meta.updatedAt == Some(now)
      && r[i].meta.createdAt == p.meta.createdAt
      && r[i].meta.syncedAt == p.meta.syncedAt
      && r[i].meta.dhis2Uid == p.meta.dhis2Uid
      && forall j :: 0 <= j < |all| && j != i ==> r[j] == all[j]
  {
  }

  /** Saving a patient whose id is not stored appends exactly one patient, stamped
      with `createdAt = updatedAt = now`, and keeps the others in place. */
  lemma SaveNewPatient(all: seq<Patient>, p: Patient, now: string)
    requires FirstIndex(all, PatientKey, p.id).None?
    ensures var r := SavedPatients(all, p, now);
      && |r| == |all| + 1
      && r[..|all|] == all
      && r[|all|] == p.(meta := r[|all|].meta)
      && r[|all|].meta.createdAt == Some(now)
      && r[|all|].meta.updatedAt == Some(now)
      && r[|all|].meta.syncedAt == p.meta.syncedAt
      && r[|all|].meta.dhis2Uid == p.meta.dhis2Uid
  {
  }

  /** After `save(p)`, `getById(p.id)` finds `p` with its timestamps, and finds it at
      the position the id already had (or at the end). */
  lemma GetByIdAfterSave(all: seq<Patient>, p: Patient, now: string)
    ensures var r := SavedPatients(all, p, now);
      var found := FindFirst(r, PatientKey, p.id);
      && found.Some?
      && found.value == p.(meta := found.value.meta)
      && found.value.meta.updatedAt == Some(now)
      && (FirstIndex(all, PatientKey, p.id).None? ==> found.value.meta.createdAt == Some(now))
      && FirstIndex(r, PatientKey, p.id) == Some(FirstIndex(all, PatientKey, p.id).GetOr(|all|))
  {
    FindFirstAfterUpsert(all, PatientKey, p.id, Touched(p, now), Created(p, now));
  }

  // ---------------------------------------------------------------------------
  // partograms

  predicate IsActive(g: Partograph) {
    g.status == Active
  }

  /** `all.filter(p => p.status === 'ACTIVE')`. */
  function ActiveOnly(all: seq<Partograph>): seq<Partograph> {
    Filter(all, IsActive)
  }

  /** The active partographs are exactly the stored ones whose status is ACTIVE, each
      as often as it is stored, in storage order. */
  lemma ActiveOnlyIsExactly(all: seq<Partograph>)
    ensures forall i :: 0 <= i < |ActiveOnly(all)| ==> ActiveOnly(all)[i].status == Active
    ensures forall i :: 0 <= i < |all| && all[i].status == Active ==> all[i] in ActiveOnly(all)
    ensures forall g :: multiset(ActiveOnly(all))[g] == if g.status == Active then multiset(all)[g] else 0
    ensures IsSubsequence(ActiveOnly(all), all)
  {
    FilterIsExactly(all, IsActive);
    FilterIsSubsequence(all, IsActive);
  }

  /** The partograph array that `partograms.save(g)` writes back: the same upsert as
      for patients, with `g` stored as it came, without timestamps. A stored id has its
      first entry replaced by `g`, later entries with the same id kept; a new id is
      appended. */
  function SavedPartographs(all: seq<Partograph>, g: Partograph): (r: seq<Partograph>)
    ensures FindFirst(r, PartographKey, g.id) == Some(g)
    ensures |r| == |all| || |r| == |all| + 1
    ensures |r| == |all| <==> exists j :: 0 <= j < |all| && all[j].id == g.id
    ensures forall j :: 0 <= j < |all| && all[j].id != g.id ==> r[j] == all[j]
    ensures FirstIndex(all, PartographKey, g.id).Some? ==>
      var i := FirstIndex(all, PartographKey, g.id).value;
      && |r| == |all|
      && r[i] == g
      && forall j :: 0 <= j < |all| && j != i ==> r[j] == all[j]
    ensures FirstIndex(all, PartographKey, g.id).None? ==> r == all + [g]
  {
    FindFirstAfterUpsert(all, PartographKey, g.id, g, g);
    Upsert(all, PartographKey, g.id, g, g)
  }

  // ---------------------------------------------------------------------------
  // referrals

  /** `Math.floor(Math.random() * 10000)` for a draw `random` in [0, 1). */
  function ReferralNumber(random: real): (n: int)
    requires 0.0 <= random < 1.0
    ensures 0 <= n <= 9999
    ensures n as real <= random * 10000.0 < n as real + 1.0
  {
    (random * 10000.0).Floor
  }

  /** Every number in [0, 9999] can be drawn. */
  lemma EveryReferralNumberReachable(n: nat)
    requires n <= 9999
    ensures ReferralNumber(n as real / 10000.0) == n
  {
  }

  /** `` `REF-${n}` ``: the prefix "REF-" followed by the decimal numeral of `n`. */
  function ReferralId(n: nat): (id: string)
    ensures |id| >= 5 && id[..4] == "REF-"
    ensures IsDigits(id[4..]) && ParseNat(id[4..]) == n
  {
    ParseNatToString(n);
    assert ("REF-" + NatToString(n))[4..] == NatToString(n);
    "REF-" + NatToString(n)
  }

  /** Two ids are equal exactly when the drawn numbers are: nothing but the draw
      distinguishes referrals created by `create`. */
  lemma ReferralIdsCollideIffSameNumber(a: nat, b: nat)
    ensures ReferralId(a) == ReferralId(b) <==> a == b
  {
    if ReferralId(a) == ReferralId(b) {
      assert ReferralId(a)[4..] == ReferralId(b)[4..];
    }
  }

  /** `{ ...referral, id, createdAt: new Date().toISOString(), updatedAt: new
      Date().toISOString() }`; the clock is read twice, so the two stamps are two
      parameters. */
  function NewReferral(draft: ReferralDraft, id: string, createdAt: string, updatedAt: string): (r: Referral)
    ensures r.id == id
    ensures r.meta.createdAt == Some(createdAt) && r.meta.updatedAt == Some(updatedAt)
    ensures r.patientId == draft.patientId && r.fromStructureId == draft.fromStructureId
    ensures r.toStructureId == draft.toStructureId && r.reason == draft.reason
    ensures r.priority == draft.priority && r.status == draft.status
    ensures r.meta.syncedAt == draft.syncedAt && r.meta.dhis2Uid == draft.dhis2Uid
  {
    Referral(id, draft.patientId, draft.fromStructureId, draft.toStructureId, draft.priority,
             draft.reason, draft.status,
             Metadata(Some(createdAt), Some(updatedAt), draft.syncedAt, draft.dhis2Uid))
  }

  /** `create` does not check the drawn id against the stored ones: when the draw hits
      a stored id, two referrals share it afterwards. */
  lemma CreateDoesNotCheckUniqueness(all: seq<Referral>, k: nat, draft: ReferralDraft, random: real,
                                     createdAt: string, updatedAt: string)
    requires 0.0 <= random < 1.0
    requires k < |all| && all[k].id == ReferralId(ReferralNumber(random))
    ensures var r := all + [NewReferral(draft, ReferralId(ReferralNumber(random)), createdAt, updatedAt)];
      r[k].id == r[|all|].id && k != |all|
  {
  }

  class Store {
    var patientData: Option<seq<Patient>>
    var partographData: Option<seq<Partograph>>
    var referralData: Option<seq<Referral>>

    /** A browser with nothing stored under the three keys. */
    constructor ()
      ensures patientData.None? && partographData.None? && referralData.None?
    {
      patientData, partographData, referralData := None, None, None;
    }

    function Patients(): seq<Patient>
      reads this
    {
      Decode(patientData)
    }

    function Partographs(): seq<Partograph>
      reads this
    {
      Decode(partographData)
    }

    function Referrals(): seq<Referral>
      reads this
    {
      Decode(referralData)
    }

    /** `patients.getAll`. */
    method GetAllPatients() returns (all: seq<Patient>)
      ensures all == Patients()
      ensures patientData.None? ==> all == []
    {
      all := Decode(patientData);
    }

    /** `patients.getById`: the first stored patient with that id, or null. */
    method GetPatientById(id: string) returns (found: Option<Patient>)
      ensures found.Some? ==> found.value.id == id && found.value in Patients()
      ensures found.Some? ==> exists i :: 0 <= i < |Patients()| && Patients()[i] == found.value
                                        && forall j :: 0 <= j < i ==> Patients()[j].id != id
      ensures found.None? <==> forall j :: 0 <= j < |Patients()| ==> Patients()[j].id != id
    {
      var all := GetAllPatients();
      found := FindFirst(all, PatientKey, id);
      if found.Some? {
        var i := FirstIndex(all, PatientKey, id).value;
        assert all[i] == found.value;
      }
    }

    /** `patients.save`: replace the first patient with the same id by the incoming one
        stamped with `updatedAt = now`, or append it stamped with `createdAt` and
        `updatedAt`, then write the whole array back. */
    method SavePatient(p: Patient, now: string)
      modifies this
      ensures Patients() == SavedPatients(old(Patients()), p, now)
      ensures patientData.Some?
      ensures partographData == old(partographData) && referralData == old(referralData)
    {
      var all := GetAllPatients();
      var index := FirstIndex(all, PatientKey, p.id);
      if index.Some? {
        all := all[index.value := Touched(p, now)];
      } else {
        all := all + [Created(p, now)];
      }
      patientData := Some(all);
    }

    /** `partograms.getActive`. */
    method GetActivePartographs() returns (active: seq<Partograph>)
      ensures active == ActiveOnly(Partographs())
      ensures forall i :: 0 <= i < |active| ==> active[i].status == Active && active[i] in Partographs()
    {
      var all := Decode(partographData);
      active := Filter(all, IsActive);
      FilterIsExactly(all, IsActive);
    }

    /** `partograms.save`: the same upsert, storing the partograph as given. */
    method SavePartograph(g: Partograph)
      modifies this
      ensures Partographs() == SavedPartographs(old(Partographs()), g)
      ensures partographData.Some?
      ensures patientData == old(patientData) && referralData == old(referralData)
    {
      var all := Decode(partographData);
      var index := FirstIndex(all, PartographKey, g.id);
      if index.Some? {
        all := all[index.value := g];
      } else {
        all := all + [g];
      }
      partographData := Some(all);
    }

    /** `referrals.getAll`. */
    method GetAllReferrals() returns (all: seq<Referral>)
      ensures all == Referrals()
      ensures referralData.None? ==> all == []
    {
      all := Decode(referralData);
    }

    /** `referrals.create`: draw an id, append the stamped referral, return the id. */
    method CreateReferral(draft: ReferralDraft, random: real, createdAt: string, updatedAt: string)
      returns (id: string)
      requires 0.0 <= random < 1.0
      modifies this
      ensures id == ReferralId(ReferralNumber(random))
      ensures Referrals() == old(Referrals()) + [NewReferral(draft, id, createdAt, updatedAt)]
      ensures patientData == old(patientData) && partographData == old(partographData)
    {
      var all := GetAllReferrals();
      id := "REF-" + NatToString((random * 10000.0).Floor);
      var newRef := NewReferral(draft, id, createdAt, updatedAt);
      all := all + [newRef];
      referralData := Some(all);
    }
  }
}
