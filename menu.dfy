/** The professional menu of `components/Layout.tsx`: which entries a role and job role
    see, in which order, and the first four of them that the mobile bar shows. */
module Menus {
  import opened Options
  import opened Types
  import Session

  /** The six entries a professional menu can hold, in their fixed order. */
  datatype MenuItem = Accueil | AfyaBot | Cpn | Partogramme | Refs | Stats

  function Name(item: MenuItem): string {
    match item
    case Accueil => "Accueil"
    case AfyaBot => "AfyaBot"
    case Cpn => "CPN"
    case Partogramme => "Partogramme"
    case Refs => "Réfs"
    case Stats => "Stats"
  }

  function Path(item: MenuItem): string {
    match item
    case Accueil => "/"
    case AfyaBot => "/afyabot"
    case Cpn => "/cpn"
    case Partogramme => "/partogram"
    case Refs => "/referrals"
    case Stats => "/stats"
  }

  /** The position of each entry in the fixed menu order. */
  function Rank(item: MenuItem): int {
    match item
    case Accueil => 0
    case AfyaBot => 1
    case Cpn => 2
    case Partogramme => 3
    case Refs => 4
    case Stats => 5
  }

  /** Entries appear in the fixed order, each at most once. */
  predicate InMenuOrder(items: seq<MenuItem>) {
    forall i, j :: 0 <= i < j < |items| ==> Rank(items[i]) < Rank(items[j])
  }

  predicate IsMedical(jobRole: Option<JobRole>) {
    jobRole == Some(Medecin) || jobRole == Some(SageFemme)
  }

  /** The roles whose menu depends on the job role. */
  predicate HasJobMenu(role: Role) {
    role == AireDeSante || role == ZoneDeSante
  }

  /** The menu `getProMenuItems` returns, entry by entry. */
  function ProMenu(role: Role, jobRole: Option<JobRole>): (items: seq<MenuItem>)
    ensures 2 <= |items| <= 5 && items[0] == Accueil && items[1] == AfyaBot
    ensures InMenuOrder(items)
    ensures HasJobMenu(role) && jobRole.None? ==> items == [Accueil, AfyaBot]
    ensures !HasJobMenu(role) ==> items == [Accueil, AfyaBot, Cpn, Stats]
  {
    if HasJobMenu(role) then
      [Accueil, AfyaBot]
      + (if IsMedical(jobRole) || jobRole == Some(Infirmier) then [Cpn] else [])
      + (if IsMedical(jobRole) then [Partogramme] else [])
      + (if jobRole == Some(Admin) || IsMedical(jobRole) then [Refs] else [])
    else
      [Accueil, AfyaBot, Cpn, Stats]
  }

  /** At zone and area level the care entries are granted by the job role: CPN to the
      doctor, the midwife and the nurse, the partograph to the doctor and the midwife. */
  lemma JobMenuCareEntries(role: Role, jobRole: Option<JobRole>)
    requires HasJobMenu(role)
    ensures Cpn in ProMenu(role, jobRole) <==> IsMedical(jobRole) || jobRole == Some(Infirmier)
    ensures Partogramme in ProMenu(role, jobRole) <==> IsMedical(jobRole)
  {
    match jobRole
    case None =>
    case Some(Admin) => assert ProMenu(role, jobRole) == [Accueil, AfyaBot, Refs];
    case Some(Infirmier) => assert ProMenu(role, jobRole) == [Accueil, AfyaBot, Cpn];
    case Some(_) => assert ProMenu(role, jobRole) == [Accueil, AfyaBot, Cpn, Partogramme, Refs];
  }

  /** At zone and area level the referrals go to the doctor, the midwife and the
      administrator, and the statistics to nobody. */
  lemma JobMenuOtherEntries(role: Role, jobRole: Option<JobRole>)
    requires HasJobMenu(role)
    ensures Refs in ProMenu(role, jobRole) <==> IsMedical(jobRole) || jobRole == Some(Admin)
    ensures Stats !in ProMenu(role, jobRole)
  {
    match jobRole
    case None =>
    case Some(Admin) => assert ProMenu(role, jobRole) == [Accueil, AfyaBot, Refs];
    case Some(Infirmier) => assert ProMenu(role, jobRole) == [Accueil, AfyaBot, Cpn];
    case Some(_) => assert ProMenu(role, jobRole) == [Accueil, AfyaBot, Cpn, Partogramme, Refs];
  }

  /** `getProMenuItems`: copy the two base entries, then push the entries the job role
      grants, or return the default menu. */
  method ProMenuItems(role: Role, jobRole: Option<JobRole>) returns (items: seq<MenuItem>)
    ensures items == ProMenu(role, jobRole)
  {
    var isAdmin := jobRole == Some(Admin);
    var isMedical := jobRole == Some(Medecin) || jobRole == Some(SageFemme);
    var isNursing := jobRole == Some(Infirmier);
    var baseItems := [Accueil, AfyaBot];
    if role == AireDeSante || role == ZoneDeSante {
      items := baseItems;
      if isMedical || isNursing {
        items := items + [Cpn];
      }
      if isMedical {
        items := items + [Partogramme];
      }
      if isAdmin || isMedical {
        items := items + [Refs];
      }
      return;
    }
    items := baseItems + [Cpn, Stats];
  }

  /** Every menu entry leads to a route the router declares. */
  lemma MenuPathsAreRoutes(role: Role, jobRole: Option<JobRole>)
    ensures forall i :: 0 <= i < |ProMenu(role, jobRole)| ==>
      Path(ProMenu(role, jobRole)[i]) in Session.KnownPaths()
  {
  }

  /** Neither the role nor the job role ever opens the vaccination calendar from this
      menu. */
  lemma NoMenuEntryForVaccination(role: Role, jobRole: Option<JobRole>)
    ensures forall i :: 0 <= i < |ProMenu(role, jobRole)| ==> Path(ProMenu(role, jobRole)[i]) != "/vaccination"
  {
  }

  /** `proMenu.slice(0, 4)`. */
  function MobileBar(items: seq<MenuItem>): (bar: seq<MenuItem>)
    ensures |bar| == if |items| < 4 then |items| else 4
    ensures bar <= items
  {
    if |items| <= 4 then items else items[..4]
  }

  /** The menu the layout shows: none for a community member, whose layout has no
      professional menu, and `getProMenuItems()` for every other role. */
  function LayoutMenu(role: Role, jobRole: Option<JobRole>): (menu: Option<seq<MenuItem>>)
    ensures menu.None? <==> role == Communaute
    ensures menu.Some? ==> menu.value == ProMenu(role, jobRole)
  {
    if role == Communaute then None else Some(ProMenu(role, jobRole))
  }

  /** A doctor or midwife at zone or area level gets all five entries on the sidebar,
      and the mobile bar drops the last one, the referrals. */
  lemma MobileBarDropsReferralsForMedicalStaff(role: Role, jobRole: Option<JobRole>)
    requires HasJobMenu(role) && IsMedical(jobRole)
    ensures ProMenu(role, jobRole) == [Accueil, AfyaBot, Cpn, Partogramme, Refs]
    ensures Refs !in MobileBar(ProMenu(role, jobRole))
  {
    var bar := MobileBar(ProMenu(role, jobRole));
    assert bar == [Accueil, AfyaBot, Cpn, Partogramme];
  }

  /** In every other case the mobile bar shows the whole menu. */
  lemma MobileBarShowsWholeMenuOtherwise(role: Role, jobRole: Option<JobRole>)
    requires !(HasJobMenu(role) && IsMedical(jobRole))
    ensures MobileBar(ProMenu(role, jobRole)) == ProMenu(role, jobRole)
  {
  }
}
