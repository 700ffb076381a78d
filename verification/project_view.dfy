/**
 * The project page's data hook: it loads one project by the route's id,
 * lists its creator as the only member, and decides whether the signed-in
 * user owns the project.
 */
module ProjectView {
  import opened Common
  import opened Text
  import opened Backend
  import Discover

  /** A member entry; the avatar is always left undefined (`None`). */
  datatype Member = Member(id: Id, name: string, avatar: Option<string>, role: string)

  /** A loaded project: its id, its row, and the members list built for it. */
  datatype Loaded = Loaded(id: Id, project: Project, members: seq<Member>)

  /** The hook's state: the project (`None`: JavaScript `null`) and the loading flag. */
  datatype View = View(project: Option<Loaded>, loading: bool)

  /** Which backend queries fail; a failed profile query reads as no profile. */
  datatype Faults = Faults(project: bool, profile: bool)

  const OwnerRole := "Project Owner"

  /** `` `${first || ""} ${last || ""}`.trim() || "Anonymous User" ``. */
  function MemberName(p: Person): (name: string)
    ensures name != ""
    ensures Discover.FullName(p) != "" ==> name == Discover.FullName(p)
    ensures Discover.FullName(p) == "" ==> name == "Anonymous User"
  {
    Or(Discover.FullName(p), "Anonymous User")
  }

  /** The members list: the creator as "Project Owner" when the creator has a profile, else empty. */
  function Members(s: Store, creator: Id, profileFails: bool): (ms: seq<Member>)
    ensures |ms| <= 1
    ensures |ms| == 1 <==> !profileFails && creator in s.details
    ensures |ms| == 1 ==> ms[0] == Member(creator, MemberName(s.details[creator]), None, OwnerRole)
  {
    if !profileFails && creator in s.details then [Member(creator, MemberName(s.details[creator]), None, OwnerRole)]
    else []
  }

  /**
   * `fetchProject`. Without a route id nothing is queried and the previous
   * project stays; a failed or empty project query gives `None`; loading
   * always ends false.
   */
  function Fetch(routeId: Option<Id>, s: Store, f: Faults, prev: Option<Loaded>): (v: View)
    ensures !v.loading
    ensures !Present(routeId) ==> v.project == prev
    ensures Present(routeId) ==>
              (v.project.Some? <==> !f.project && routeId.value in s.projects)
    ensures v.project.Some? && Present(routeId) ==>
              && v.project.value.id == routeId.value
              && v.project.value.project == s.projects[routeId.value]
              && v.project.value.members == Members(s, s.projects[routeId.value].creatorId, f.profile)
  {
    if !Present(routeId) then View(prev, false)
    else
      var id := routeId.value;
      if f.project || id !in s.projects then View(None, false)
      else
        var row := s.projects[id];
        View(Some(Loaded(id, row, Members(s, row.creatorId, f.profile))), false)
  }

  /** `isOwner`: a signed-in user and a loaded project whose creator is that user. */
  function IsOwner(user: Option<Id>, project: Option<Loaded>): (owner: bool)
    ensures owner <==> user.Some? && project.Some? && user.value == project.value.project.creatorId
  {
    match (user, project)
    case (Some(u), Some(p)) => u == p.project.creatorId
    case _ => false
  }

  /**
   * Every member of a loaded project is its owner: the one member listed is
   * the creator, and that user is the owner of the project.
   */
  lemma {:induction false} MembersAreOwners(routeId: Id, s: Store, f: Faults, prev: Option<Loaded>)
    requires routeId != ""
    ensures var v := Fetch(Some(routeId), s, f, prev);
            v.project.Some? ==>
              forall i :: 0 <= i < |v.project.value.members| ==>
                v.project.value.members[i].role == OwnerRole
                && IsOwner(Some(v.project.value.members[i].id), v.project)
  {
    var v := Fetch(Some(routeId), s, f, prev);
    if v.project.Some? {
      var ms := v.project.value.members;
      assert |ms| == 1 ==> ms[0].id == s.projects[routeId].creatorId;
    }
  }

  /** The owner's name on the page: a profile with no names gives "Anonymous User". */
  lemma AnonymousOwner(s: Store, id: Id)
    requires id != "" && id in s.projects && s.projects[id].creatorId in s.details
    requires s.details[s.projects[id].creatorId].firstName.None? && s.details[s.projects[id].creatorId].lastName.None?
    ensures Fetch(Some(id), s, Faults(false, false), None).project.value.members[0].name == "Anonymous User"
  {
    assert IsSpace(' ');
    assert IsBlank("" + " " + "");
  }
}
