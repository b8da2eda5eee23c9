/**
 * How a view-set's list of permission classes is judged for one request.
 *
 * The view-set returns a list of permission instances; the framework asks each
 * one in list order and stops at the first that refuses, so the request is
 * permitted exactly when every listed permission holds, and the first refusing
 * permission decides what the caller is told.
 */
module Access {

  /**
   * The caller: an anonymous visitor, or a logged-in account with its staff flag.
   * The caller's identity reaches the checks only through the author verdict of a Request.
   */
  datatype User = Anonymous | Account(isStaff: bool)

  /**
   * What a permission check can see of a request. `authorOrAdmin` is the verdict
   * of the project's own IsAuthorOrIsAdmin class for this caller and the review
   * in question; that class is not part of this model, so its verdict is an input.
   */
  datatype Request = Request(user: User, authorOrAdmin: bool)

  /** The permission classes the views hand out. */
  datatype Perm = IsAdminUser | IsAuthenticated | IsAuthorOrIsAdmin

  /** Outcome of checking a permission list: allowed, or refused by the first failing class. */
  datatype Verdict = Allowed | Denied(failed: Perm)

  predicate Authenticated(u: User) {
    u.Account?
  }

  predicate Staff(u: User) {
    u.Account? && u.isStaff
  }

  /**
   * Whether one permission class grants the request. Staff accounts are logged in,
   * so an administrator grant is also a login grant, and an anonymous caller can
   * only be granted by the author-or-admin class.
   */
  predicate Holds(p: Perm, req: Request): (b: bool)
    ensures p == IsAdminUser && b ==> Authenticated(req.user)
    ensures req.user.Anonymous? && b ==> p == IsAuthorOrIsAdmin
  {
    match p
    case IsAdminUser => Staff(req.user)
    case IsAuthenticated => Authenticated(req.user)
    case IsAuthorOrIsAdmin => req.authorOrAdmin
  }

  /** Every listed permission grants the request. */
  predicate AllHold(perms: seq<Perm>, req: Request) {
    forall i :: 0 <= i < |perms| ==> Holds(perms[i], req)
  }

  /** Index of the first permission that refuses, or |perms| when none does. */
  function FirstUnmet(perms: seq<Perm>, req: Request): (k: nat)
    ensures k <= |perms|
    ensures forall j :: 0 <= j < k ==> Holds(perms[j], req)
    ensures k < |perms| ==> !Holds(perms[k], req)
  {
    if perms == [] then 0
    else if !Holds(perms[0], req) then 0
    else 1 + FirstUnmet(perms[1..], req)
  }

  /** The verdict on a permission list: the first refusing class, if any, in list order. */
  function Check(perms: seq<Perm>, req: Request): (v: Verdict)
    ensures v.Allowed? <==> AllHold(perms, req)
    ensures v.Denied? ==>
      exists k :: && 0 <= k < |perms| && v.failed == perms[k] && !Holds(perms[k], req)
                  && (forall j :: 0 <= j < k ==> Holds(perms[j], req))
  {
    var k := FirstUnmet(perms, req);
    if k == |perms| then Allowed else Denied(perms[k])
  }

  predicate Permitted(perms: seq<Perm>, req: Request) {
    Check(perms, req).Allowed?
  }

  /** The first refusing index is determined by the list: it is the least refusing position. */
  lemma FirstUnmetIsLeast(perms: seq<Perm>, req: Request, k: nat)
    requires k <= |perms|
    requires forall j :: 0 <= j < k ==> Holds(perms[j], req)
    requires k < |perms| ==> !Holds(perms[k], req)
    ensures FirstUnmet(perms, req) == k
  {
  }

  /**
   * Checking a list that is one list followed by another: the second list is
   * consulted only when everything in the first grants the request.
   */
  lemma {:induction false} CheckAppend(a: seq<Perm>, b: seq<Perm>, req: Request)
    ensures Check(a + b, req) == if Check(a, req).Allowed? then Check(b, req) else Check(a, req)
  {
    var ka := FirstUnmet(a, req);
    if ka < |a| {
      assert (a + b)[ka] == a[ka];
      FirstUnmetIsLeast(a + b, req, ka);
    } else {
      var kb := FirstUnmet(b, req);
      forall j | 0 <= j < |a| + kb
        ensures Holds((a + b)[j], req)
      {
        if j >= |a| {
          assert (a + b)[j] == b[j - |a|];
        }
      }
      if kb < |b| {
        assert (a + b)[|a| + kb] == b[kb];
      }
      FirstUnmetIsLeast(a + b, req, |a| + kb);
    }
  }

  /** A concatenated list is permitted iff both of its parts are. */
  lemma PermittedAppend(a: seq<Perm>, b: seq<Perm>, req: Request)
    ensures Permitted(a + b, req) <==> Permitted(a, req) && Permitted(b, req)
  {
    CheckAppend(a, b, req);
  }
}
