/**
 * IsAuthenticatedOrIsOwner: the permission class guarding the account detail
 * and update views. Authentication first, then self-match by e-mail.
 */
module AccountPermissions {
  import opened Domain

  /** Stage one: the principal must be authenticated. */
  function HasPermission(p: Principal): (r: bool)
    ensures r <==> p.IsAuthenticated()
  {
    p.IsAuthenticated()
  }

  /**
   * Stage two: exact, case-sensitive e-mail equality with the addressed account.
   * Neither the verb nor any flag takes part. An anonymous principal has no
   * e-mail, so only authenticated principals can be asked.
   */
  function HasObjectPermission(p: Principal, obj: Account): (r: bool)
    requires p.IsAuthenticated()
    ensures r <==> p.email == obj.email
  {
    p.email == obj.email
  }

  /** The two stages as the dispatch layer applies them to one account request. */
  function Decide(p: Principal, obj: Account): (d: Decision)
    ensures d == Allow <==> p.IsAuthenticated() && p.email == obj.email
    ensures d == NotAuthenticated <==> !p.IsAuthenticated()
    ensures d != NotFound
  {
    if !HasPermission(p) then NotAuthenticated
    else if !HasObjectPermission(p, obj) then PermissionDenied
    else Allow
  }

  /** Superuser and staff rights give nothing over another account. */
  lemma PrivilegeGrantsNothing(p: Principal, obj: Account)
    requires p.User? && p.email != obj.email
    ensures !HasObjectPermission(p, obj)
    ensures !HasObjectPermission(p.(isSuperuser := true, isStaff := true), obj)
  {
  }

  /** The users of the account tests: an active account and a second one. */
  const TestUser: Account := User(1, "test@test.com", false, false)
  const SecondUser: Account := User(2, "another@test.com", false, false)

  /** Reading or updating one's own account is allowed (200); another's is refused (403). */
  lemma AccountTestOutcomes()
    ensures Decide(TestUser, TestUser) == Allow
    ensures Decide(SecondUser, TestUser) == PermissionDenied
    ensures Decide(Anonymous, TestUser) == NotAuthenticated
  {
  }
}
