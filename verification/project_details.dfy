/**
 * The overview of one project: the stage badge (colour and label shared
 * with the project card), the category badge, the tag list and the
 * roles-needed list with its placeholder.
 */
module ProjectDetails {
  import opened Common
  import opened Text
  import Stages

  /** The columns the overview reads; `tags` and `roles_needed` may be missing. */
  datatype Details = Details(stage: string, category: string, tags: Option<seq<string>>, roles: Option<seq<string>>)

  /** The roles area: the placeholder text, or one badge per role. */
  datatype RolesArea = Placeholder | Roles(roles: seq<string>)

  const NoRoles := "No specific roles listed"

  /** `roles_needed?.length > 0`: a missing list compares `undefined > 0`, which is false. */
  function RolesShown(roles: Option<seq<string>>): (area: RolesArea)
    ensures area.Placeholder? <==> roles.None? || roles.value == []
    ensures area.Roles? ==> area.roles == roles.value && |area.roles| > 0
  {
    if roles.Some? && |roles.value| > 0 then Roles(roles.value) else Placeholder
  }

  /** `tags && tags.map(…)`: every tag when the list is present, nothing otherwise. */
  function TagsShown(tags: Option<seq<string>>): (shown: seq<string>)
    ensures tags.Some? ==> shown == tags.value
    ensures tags.None? ==> shown == []
  {
    tags.GetOr([])
  }

  /** The overview's header and lists. */
  datatype Overview = Overview(color: string, badge: string, category: Option<string>, tags: seq<string>, roles: RolesArea)

  function Render(d: Details): (o: Overview)
    ensures o.color == Stages.StageColor(d.stage) && o.badge == Stages.StageLabel(d.stage)
    ensures o.category.Some? <==> d.category != ""
    ensures o.category.Some? ==> o.category.value == d.category
    ensures o.tags == TagsShown(d.tags) && o.roles == RolesShown(d.roles)
  {
    Overview(Stages.StageColor(d.stage), Stages.StageLabel(d.stage),
             if Truthy(d.category) then Some(d.category) else None,
             TagsShown(d.tags), RolesShown(d.roles))
  }
}
