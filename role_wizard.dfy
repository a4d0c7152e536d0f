/** The role wizard of `components/RoleSelector.tsx`: the step shown, the base role
    clicked and the zone chosen, the handlers that move between the steps, and the
    fixed lists of provinces, zones and health centres it offers. A handler that
    calls `onSelect(role, province?, structure?)` returns that call as a `Selection`;
    one that only moves between steps returns nothing. */
module RoleWizard {
  import opened Options
  import opened Types
  import opened Seqs

  datatype Step = RoleStep | ProvinceStep | ZoneStep | StructureStep

  /** The arguments of one `onSelect` call. */
  datatype Selection = Selection(role: Role, province: Option<Province>, structure: Option<HealthStructure>)

  function Provinces(): seq<Province> {
    [Province("NK", "Nord-Kivu")]
  }

  function Zones(): seq<ZoneDeSante> {
    [ Zone("GOMA", "Zone Goma", "NK", "HGR-GOMA", Some("HGR Provincial Nord-Kivu")),
      Zone("NYIRAGONGO", "Zone Nyiragongo", "NK", "HGR-NYI", Some("HGR Nyiragongo")),
      Zone("KARISIMBI", "Zone Karisimbi", "NK", "HGR-KAR", Some("HGR Karisimbi")) ]
  }

  function Structures(): seq<HealthStructure> {
    [ HealthStructure("HEAL", "Heal Africa", Cs, "GOMA", "NK"),
      HealthStructure("MOTCARMEL", "CS Mot Carmel", Cs, "GOMA", "NK"),
      HealthStructure("RUSAYO", "CS Rusayo", Cs, "NYIRAGONGO", "NK"),
      HealthStructure("KIZIBA", "CS Kiziba", Cs, "NYIRAGONGO", "NK"),
      HealthStructure("MABANGA", "CS Mabanga Sud", Cs, "KARISIMBI", "NK"),
      HealthStructure("METHODISTE", "CS Méthodiste", Cs, "KARISIMBI", "NK") ]
  }

  /** The structure a zone-level user selects by picking a zone: the zone's referral
      hospital, named `z.hgrName || z.name`, so an absent or empty hospital name falls
      back to the zone's name. */
  function ZoneHospital(z: ZoneDeSante): (s: HealthStructure)
    ensures s.id == z.id && s.zoneId == z.id && s.provinceId == z.provinceId
    ensures s.structureType == Hgr
    ensures s.name == (if z.hgrName.Some? && z.hgrName.value != "" then z.hgrName.value else z.name)
    ensures |s.name| > 0 || z.name == ""
  {
    var name := if z.hgrName.Some? && z.hgrName.value != "" then z.hgrName.value else z.name;
    HealthStructure(z.id, name, Hgr, z.id, z.provinceId)
  }

  /** Whether structure `s` is listed for the selected zone. */
  predicate ListedFor(zone: Option<ZoneDeSante>, s: HealthStructure) {
    zone.Some? && s.zoneId == zone.value.id
  }

  function ListedTest(zone: Option<ZoneDeSante>): HealthStructure -> bool {
    s => ListedFor(zone, s)
  }

  /** `structures.filter(s => s.zoneId === selectedZone?.id)` over a structure list. */
  function StructuresOf(all: seq<HealthStructure>, zone: Option<ZoneDeSante>): seq<HealthStructure> {
    Filter(all, ListedTest(zone))
  }

  /** The structures the structure step lists for `zone`. */
  function StructuresIn(zone: Option<ZoneDeSante>): seq<HealthStructure> {
    StructuresOf(Structures(), zone)
  }

  /** The structure step lists exactly the structures of the selected zone, each as
      often as it is declared, in declaration order, and nothing without a selected
      zone. */
  lemma StructuresOfIsExactly(all: seq<HealthStructure>, zone: Option<ZoneDeSante>)
    ensures forall s :: s in StructuresOf(all, zone) <==> s in all && ListedFor(zone, s)
    ensures forall s :: multiset(StructuresOf(all, zone))[s] == if ListedFor(zone, s) then multiset(all)[s] else 0
    ensures IsSubsequence(StructuresOf(all, zone), all)
    ensures zone.None? ==> StructuresOf(all, zone) == []
  {
    FilterIsExactly(all, ListedTest(zone));
    FilterIsSubsequence(all, ListedTest(zone));
    if zone.None? {
      FilterNoneKept(all, ListedTest(zone));
    }
  }

  /** Each offered zone lists its two health centres. */
  lemma StructuresOfOfferedZones()
    ensures StructuresIn(Some(Zones()[0])) == Structures()[0..2]
    ensures StructuresIn(Some(Zones()[1])) == Structures()[2..4]
    ensures StructuresIn(Some(Zones()[2])) == Structures()[4..6]
  {
    StructuresOfZone(0);
    StructuresOfZone(1);
    StructuresOfZone(2);
  }

  lemma StructuresOfZone(k: nat)
    requires k < 3
    ensures StructuresIn(Some(Zones()[k])) == Structures()[2 * k..2 * k + 2]
  {
    assert StructuresIn(Some(Zones()[k])) == Filter(Structures(), ListedTest(Some(Zones()[k])));
    var all, t := Structures(), ListedTest(Some(Zones()[k]));
    assert t(all[0]) == t(all[1]) == (k == 0);
    assert t(all[2]) == t(all[3]) == (k == 1);
    assert t(all[4]) == t(all[5]) == (k == 2);
    FilterOfThreePairs(all, t, k);
  }

  class RoleSelector {
    var step: Step
    var selectedBaseRole: Option<Role>
    var selectedZone: Option<ZoneDeSante>

    /** What the handlers keep: each step is reached only by the base role it serves,
        and the structure step always has a zone. */
    predicate Valid()
      reads this
    {
      && (step == ProvinceStep ==> selectedBaseRole == Some(Dps))
      && (step == ZoneStep ==> selectedBaseRole == Some(ZoneDeSante) || selectedBaseRole == Some(AireDeSante))
      && (step == StructureStep ==> selectedBaseRole == Some(AireDeSante) && selectedZone.Some?)
    }

    constructor ()
      ensures step == RoleStep && selectedBaseRole.None? && selectedZone.None?
      ensures Valid()
    {
      step, selectedBaseRole, selectedZone := RoleStep, None, None;
    }

    /** `handleRoleClick(role)`: record the role, then DPS goes on to the provinces,
        zone and area roles to the zones, and the others are selected at once. */
    method ClickRole(role: Role) returns (selected: Option<Selection>)
      requires Valid() && step == RoleStep
      modifies this
      ensures Valid()
      ensures selectedBaseRole == Some(role) && selectedZone == old(selectedZone)
      ensures role == Dps ==> step == ProvinceStep && selected.None?
      ensures (role == ZoneDeSante || role == AireDeSante) ==> step == ZoneStep && selected.None?
      ensures (role == Communaute || role == ComfortAsbl) ==>
        step == RoleStep && selected == Some(Selection(role, None, None))
    {
      selectedBaseRole := Some(role);
      selected := None;
      if role == Dps {
        step := ProvinceStep;
      } else if role == ZoneDeSante || role == AireDeSante {
        step := ZoneStep;
      } else {
        selected := Some(Selection(role, None, None));
      }
    }

    /** A province button: select DPS for that province. */
    method ChooseProvince(p: Province) returns (selected: Selection)
      requires Valid() && step == ProvinceStep
      ensures selected == Selection(Dps, Some(p), None)
    {
      selected := Selection(Dps, Some(p), None);
    }

    /** A zone button: a zone-level user selects the zone's hospital; an area-level
        user goes on to the zone's health centres. */
    method ChooseZone(z: ZoneDeSante) returns (selected: Option<Selection>)
      requires Valid() && step == ZoneStep
      modifies this
      ensures Valid()
      ensures selectedBaseRole == old(selectedBaseRole)
      ensures old(selectedBaseRole) == Some(ZoneDeSante) ==>
        selected == Some(Selection(ZoneDeSante, None, Some(ZoneHospital(z))))
        && step == ZoneStep && selectedZone == old(selectedZone)
      ensures old(selectedBaseRole) == Some(AireDeSante) ==>
        selected.None? && step == StructureStep && selectedZone == Some(z)
    {
      if selectedBaseRole == Some(ZoneDeSante) {
        selected := Some(Selection(ZoneDeSante, None, Some(ZoneHospital(z))));
      } else {
        selectedZone := Some(z);
        step := StructureStep;
        selected := None;
      }
    }

    /** The structures the structure step lists. */
    function Offered(): seq<HealthStructure>
      reads this
    {
      StructuresIn(selectedZone)
    }

    /** A structure button: select the area role for that health centre. */
    method ChooseStructure(s: HealthStructure) returns (selected: Selection)
      requires Valid() && step == StructureStep && s in Offered()
      ensures selected == Selection(AireDeSante, None, Some(s))
      ensures selected.structure.value.zoneId == selectedZone.value.id
    {
      selected := Selection(AireDeSante, None, Some(s));
    }

    /** The back button of each step: province and zone go back to the roles, the
        structure step back to the zones. */
    method Back()
      requires Valid() && step != RoleStep
      modifies this
      ensures Valid()
      ensures old(step) == ProvinceStep || old(step) == ZoneStep ==> step == RoleStep
      ensures old(step) == StructureStep ==> step == ZoneStep
      ensures selectedBaseRole == old(selectedBaseRole) && selectedZone == old(selectedZone)
    {
      if step == StructureStep {
        step := ZoneStep;
      } else {
        step := RoleStep;
      }
    }
  }
}
