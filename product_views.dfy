/**
 * The per-action tables of the product and review view-sets: which serializer
 * the product view-set uses and which permission classes each view-set demands.
 * Every table is keyed on the action name the router assigns to a request.
 */
module ProductViews {
  import opened Access

  /** The serializer classes the product view-set chooses between. */
  datatype Serializer = ProductSerializer | ProductDetailsSerializer | CreateProductSerializer

  /** Product actions that demand an administrator. */
  const ProductAdminActions: seq<string> := ["create", "update", "partial_update", "destroy"]

  /** Review actions that demand a logged-in author or administrator. */
  const ReviewMutationActions: seq<string> := ["update", "partial_update", "destroy"]

  /** The actions the product view-set routes: the model view-set actions, plus `metadata` for OPTIONS requests. */
  const ProductRoutes: seq<string> := ["list", "create", "retrieve", "update", "partial_update", "destroy", "metadata"]

  /** The actions the review view-set routes: its create, update and destroy mixins, the `reviews` action, and `metadata` for OPTIONS requests. */
  const ReviewRoutes: seq<string> := ["create", "update", "partial_update", "destroy", "reviews", "metadata"]

  /** The product view-set's serializer: the short form for listings, details for one product, the write form otherwise. */
  function ProductSerializerClass(action: string): (s: Serializer)
    ensures s == ProductSerializer <==> action == "list"
    ensures s == ProductDetailsSerializer <==> action == "retrieve"
  {
    if action == "list" then ProductSerializer
    else if action == "retrieve" then ProductDetailsSerializer
    else CreateProductSerializer
  }

  /** The product view-set's permission classes: administrators only for writes, nothing otherwise. */
  function ProductPermissions(action: string): (r: seq<Perm>)
    ensures forall req :: Permitted(r, req) <==> (action in ProductAdminActions ==> Staff(req.user))
  {
    if action in ProductAdminActions then [IsAdminUser] else []
  }

  /** The review view-set's permission classes. */
  function ReviewPermissions(action: string): (r: seq<Perm>)
    ensures forall req :: Permitted(r, req) <==>
      && (action == "create" ==> Authenticated(req.user))
      && (action in ReviewMutationActions ==> Authenticated(req.user) && req.authorOrAdmin)
  {
    if action == "create" then [IsAuthenticated]
    else if action in ReviewMutationActions then
      var r := [IsAuthenticated, IsAuthorOrIsAdmin];
      assert forall req :: AllHold(r, req) <==> Holds(r[0], req) && Holds(r[1], req);
      r
    else []
  }

  // Product permissions

  /** Each product write demands exactly the administrator class and is refused by it alone. */
  lemma ProductWriteNeedsAdmin(action: string, req: Request)
    requires action in ProductAdminActions
    ensures ProductPermissions(action) == [IsAdminUser]
    ensures Permitted(ProductPermissions(action), req) <==> Staff(req.user)
    ensures !Staff(req.user) ==> Check(ProductPermissions(action), req) == Denied(IsAdminUser)
  {
  }

  /** Every other product action, listed or not, demands nothing and is open to every caller. */
  lemma ProductOtherActionsPublic(action: string, req: Request)
    requires action !in ProductAdminActions
    ensures ProductPermissions(action) == []
    ensures Permitted(ProductPermissions(action), req)
  {
  }

  /** Among the routed product actions, exactly `list`, `retrieve` and `metadata` are public. */
  lemma ProductPublicRoutes(action: string)
    requires action in ProductRoutes
    ensures ProductPermissions(action) == [] <==> action == "list" || action == "retrieve" || action == "metadata"
  {
  }

  // Review permissions

  /** Creating a review demands exactly a logged-in caller. */
  lemma ReviewCreateNeedsLogin(req: Request)
    ensures ReviewPermissions("create") == [IsAuthenticated]
    ensures Permitted(ReviewPermissions("create"), req) <==> Authenticated(req.user)
  {
  }

  /** Changing or deleting a review demands a logged-in caller and then the author-or-admin class, in that order. */
  lemma ReviewMutationNeedsAuthor(action: string, req: Request)
    requires action in ReviewMutationActions
    ensures ReviewPermissions(action) == [IsAuthenticated, IsAuthorOrIsAdmin]
    ensures Permitted(ReviewPermissions(action), req) <==> Authenticated(req.user) && req.authorOrAdmin
  {
  }

  /**
   * A review mutation demands the create list followed by the author check; so the
   * login check speaks first, and the author check is asked only of a logged-in caller.
   */
  lemma ReviewMutationExtendsCreate(action: string, req: Request)
    requires action in ReviewMutationActions
    ensures ReviewPermissions(action) == ReviewPermissions("create") + [IsAuthorOrIsAdmin]
    ensures Check(ReviewPermissions(action), req) ==
      if Check(ReviewPermissions("create"), req).Allowed? then Check([IsAuthorOrIsAdmin], req)
      else Check(ReviewPermissions("create"), req)
    ensures Permitted(ReviewPermissions(action), req) ==> Permitted(ReviewPermissions("create"), req)
  {
  }

  /** An anonymous caller who tries to change a review is refused by the login check, not the author check. */
  lemma AnonymousMutationRefusedByLogin(action: string, authorOrAdmin: bool)
    requires action in ReviewMutationActions
    ensures Check(ReviewPermissions(action), Request(Anonymous, authorOrAdmin)) == Denied(IsAuthenticated)
  {
  }

  /** A logged-in caller whom the author check refuses is refused by that check. */
  lemma NonAuthorMutationRefusedByAuthorCheck(action: string, isStaff: bool)
    requires action in ReviewMutationActions
    ensures Check(ReviewPermissions(action), Request(Account(isStaff), false)) == Denied(IsAuthorOrIsAdmin)
  {
  }

  /** Every review action other than create, update, partial_update and destroy demands nothing. */
  lemma ReviewOtherActionsPublic(action: string, req: Request)
    requires action != "create" && action !in ReviewMutationActions
    ensures ReviewPermissions(action) == []
    ensures Permitted(ReviewPermissions(action), req)
  {
  }

  /** Among the routed review actions, only the custom `reviews` listing and `metadata` are public. */
  lemma ReviewPublicRoutes(action: string)
    requires action in ReviewRoutes
    ensures ReviewPermissions(action) == [] <==> action == "reviews" || action == "metadata"
  {
  }

  // Serializer choice against permissions

  /** Every action that demands an administrator is served by the write serializer. */
  lemma AdminActionsUseWriteSerializer(action: string)
    requires action in ProductAdminActions
    ensures ProductSerializerClass(action) == CreateProductSerializer
  {
  }

  /** The read serializers are used only by public actions. */
  lemma ReadSerializersArePublic(action: string, req: Request)
    requires ProductSerializerClass(action) != CreateProductSerializer
    ensures action == "list" || action == "retrieve"
    ensures Permitted(ProductPermissions(action), req)
  {
  }
}
