/**
 * IsAuthenticatedAndIsOwner: the permission class of the Module list, retrieve,
 * update and delete views. Stage one gates on authentication; stage two decides
 * per verb against the addressed module's owner.
 */
module ModulePermissions {
  import opened Domain

  /** Stage one: every verb and every view require an authenticated principal. */
  function HasPermission(p: Principal): (r: bool)
    ensures r <==> p.IsAuthenticated()
    ensures !r ==> p == Anonymous
  {
    p.IsAuthenticated()
  }

  /**
   * Stage two, following the source's branches: safe verbs and writes need the
   * owner, DELETE needs an authenticated owner or superuser, everything else is refused.
   */
  function HasObjectPermission(p: Principal, m: HttpMethod, obj: Module): (r: bool)
    ensures r ==> p.IsAuthenticated()
    ensures r ==> SameUser(p, obj.moduleUser) || (m == DELETE && p.isSuperuser)
    ensures (m.IsSafe() || m.IsWrite()) ==> (r <==> SameUser(p, obj.moduleUser))
    ensures m == DELETE ==> (r <==> p.IsAuthenticated() && (SameUser(p, obj.moduleUser) || p.isSuperuser))
    ensures !m.IsSafe() && !m.IsWrite() && m != DELETE ==> !r
  {
    if m.IsSafe() then
      // a non-owner falls through to the final refusal
      SameUser(p, obj.moduleUser)
    else if m.IsWrite() then
      SameUser(p, obj.moduleUser)
    else if m == DELETE then
      if !p.IsAuthenticated() then false
      else SameUser(p, obj.moduleUser) || p.isSuperuser
    else
      false
  }

  /** Anonymous is refused every object, whatever the verb. */
  lemma AnonymousNeverGranted(m: HttpMethod, obj: Module)
    ensures !HasObjectPermission(Anonymous, m, obj)
  {
  }

  /** The owner may do everything the class knows of: read, write and delete. */
  lemma OwnerGranted(p: Principal, m: HttpMethod, obj: Module)
    requires SameUser(p, obj.moduleUser)
    requires m.IsSafe() || m.IsWrite() || m == DELETE
    ensures HasObjectPermission(p, m, obj)
  {
  }

  /** Superuser status changes the outcome of DELETE only. */
  lemma SuperuserMattersOnlyForDelete(p: Principal, m: HttpMethod, obj: Module)
    requires p.User? && m != DELETE
    ensures HasObjectPermission(p.(isSuperuser := !p.isSuperuser), m, obj)
         == HasObjectPermission(p, m, obj)
  {
  }

  /** A superuser may delete any module, owned by anyone. */
  lemma SuperuserMayDeleteAny(p: Principal, obj: Module)
    requires p.User? && p.isSuperuser
    ensures HasObjectPermission(p, DELETE, obj)
  {
  }

  /** A superuser who is not the owner still may not read or write the module. */
  lemma SuperuserCannotReadOrWriteOthers(p: Principal, m: HttpMethod, obj: Module)
    requires p.User? && p.isSuperuser && !SameUser(p, obj.moduleUser)
    requires m != DELETE
    ensures !HasObjectPermission(p, m, obj)
  {
  }

  /** The staff flag is never consulted, by either stage. */
  lemma StaffNeverConsulted(p: Principal, m: HttpMethod, obj: Module)
    requires p.User?
    ensures HasPermission(p.(isStaff := !p.isStaff)) == HasPermission(p)
    ensures HasObjectPermission(p.(isStaff := !p.isStaff), m, obj) == HasObjectPermission(p, m, obj)
  {
  }
}
