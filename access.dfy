/**
 * The boolean gates of the page: who sees the group overview, who may hold
 * a link, when a stored link is shown, when a link is generated and when
 * the no-link affordances are offered.
 */
module Access {

  import opened Wrappers
  import opened Preferences

  /** `$showtable`: the group overview of an instance admin. */
  function ShowTable(foldersCreated: bool, capAdd: bool, gm: bool): bool {
    foldersCreated && capAdd && gm
  }

  /** `$teacheraccess`: the user may add instances and teachers are allowed in. */
  function TeacherAccess(capAdd: bool, teacherAllowed: bool): bool {
    capAdd && teacherAllowed
  }

  /**
   * `$hasaccess = ($teacheraccess xor !$capadd) && $folderscreated`, with
   * `xor` on booleans written as `!=`.
   */
  function HasAccess(capAdd: bool, teacherAllowed: bool, foldersCreated: bool): (r: bool)
    ensures !foldersCreated ==> !r
    ensures foldersCreated && !capAdd ==> r
    ensures capAdd ==> (r <==> foldersCreated && teacherAllowed)
  {
    (TeacherAccess(capAdd, teacherAllowed) != !capAdd) && foldersCreated
  }

  /** `$haslink`: a stored link that is not loosely null, for a user with access. */
  function HasLink(link: Option<string>, hasAccess: bool): (r: bool)
    ensures r ==> hasAccess && link.Some? && link.value != ""
  {
    !IsNullish(link) && hasAccess
  }

  /** `$cangenerate`: no link was shown and generation was requested. */
  function CanGenerate(hasLink: bool, generate: bool): bool {
    !hasLink && generate
  }

  /** `$nolink`: no generation is under way and no link was shown. */
  function NoLink(generate: bool, hasLink: bool): bool {
    !generate && !hasLink
  }
}
