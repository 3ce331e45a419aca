/**
 * The entities the authorization layer reasons about: the request's principal,
 * the HTTP verb, and the persisted Module row with its owner.
 */
module Domain {

  /** `request.user`: Django's AnonymousUser, or an authenticated row of users.User. */
  datatype Principal =
    | Anonymous
    | User(id: nat, email: string, isStaff: bool, isSuperuser: bool)
  {
    /** `user.is_authenticated`: false exactly for AnonymousUser. */
    predicate IsAuthenticated() { User? }
  }

  /** A registered account (a users.User row); always an authenticated principal. */
  type Account = p: Principal | p.User? witness User(0, "", false, false)

  /**
   * Django model equality `request.user == account`: same model and same primary key.
   * AnonymousUser is never equal to a saved account.
   */
  predicate SameUser(p: Principal, a: Account) {
    p.User? && p.id == a.id
  }

  /** An HTTP verb as `request.method` spells it. */
  datatype Verb = GET | HEAD | OPTIONS | POST | PUT | PATCH | DELETE | Other(verb: string)
  {
    /** Membership in Django REST framework's SAFE_METHODS = ('GET', 'HEAD', 'OPTIONS'). */
    predicate IsSafe() { this in {GET, HEAD, OPTIONS} }

    /** The verbs `has_object_permission` groups as writes: ('PATCH', 'PUT', 'POST'). */
    predicate IsWrite() { this in {PATCH, PUT, POST} }
  }

  /** `request.method`: `Other` never spells one of the seven named verbs. */
  type HttpMethod = m: Verb | m.Other? ==> m.verb !in ["GET", "HEAD", "OPTIONS", "POST", "PUT", "PATCH", "DELETE"]
    witness GET

  /** A persisted row of the Module model; `moduleUser` is the owner column `module_user`. */
  datatype Module = Module(id: nat, title: string, description: string, moduleUser: Account)

  /** What the dispatch layer makes of the permission checks for one request. */
  datatype Decision =
    | Allow
    | NotAuthenticated   // 401: has_permission refused an anonymous principal
    | PermissionDenied   // 403: has_object_permission refused an authenticated principal
    | NotFound           // 404: the addressed row does not exist
}
