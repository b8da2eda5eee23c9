# Product catalogue access tables and price filter

This project models the decision logic of the product application of a
REST e-commerce backend (`product/views.py`):

- which serializer the product view-set uses for each action;
- which permission classes the product view-set and the review view-set
  demand for each action, and what it means for a request to pass them;
- the price-range filter of the product listing (`price_from` / `price_to`).

Every table is a pure function of the action name the router assigns to a
request, so each is a Dafny function. Properties are stated as lemmas about
those functions. Actions are plain strings, as in the source. The framework
gives every OPTIONS request the action `metadata`, and the model treats it
as a routed action of both view-sets. None of the lists names it, so both
view-sets demand nothing for it and the product view-set serves it with the
write serializer. A request whose method is not routed gets no action, and
that behaves like any name outside the lists.

Modules:

- `Access` (`access.dfy`) models the caller as an anonymous visitor or an
  account with a staff flag. It gives the meaning of each permission class
  and checks a permission list in order, stopping at the first class that
  refuses.
- `ProductViews` (`product_views.dfy`) holds the serializer choice and the
  two permission tables, with the lemmas about them.
- `ProductFilter` (`product_filter.dfy`) applies the two number filters in
  turn, as the filter set does. It proves this equal to a single-pass
  selection by the inclusive range.
- `Wrappers` (`wrappers.dfy`) holds `Option`, used for absent query
  parameters.

The project's `IsAuthorOrIsAdmin` permission class (`product/permissions.py`)
is not part of this model. Its verdict for a request is an input,
`Request.authorOrAdmin`.

The review view-set mixes in only create, update and destroy, plus its own
`reviews` action. It therefore has no `list` or `retrieve` routes. Any such
name would get the empty list anyway.

## Model

| member | source | states |
|---|---|---|
| `Access.FirstUnmet` | product/views.py:56-61 | the framework's permission check (not in this repository) walks the list these lines return, in order, and stops at the first refusal; the result is that position, and every permission before it grants the request |
| `Access.Check` | product/views.py:56-61 | the framework's verdict on the list these lines return: allowed iff every listed class grants the request; a refusal names the first listed class, in list order, that refuses |
| `Access.CheckAppend` | product/views.py:59-60 | for a list made of two parts, the second part is consulted only when the whole first part grants the request |
| `Access.PermittedAppend` | product/views.py:59-60 | a two-part list is passed iff each part is passed |
| `Access.Holds` | product/views.py:4 | these lines import the framework classes; as the framework defines them, `IsAdminUser` grants staff accounts and `IsAuthenticated` grants logged-in accounts. So an `IsAdminUser` grant implies a logged-in caller, and an anonymous caller can be granted only by the author-or-admin class |
| `ProductViews.ProductSerializerClass` | product/views.py:36-41 | `ProductSerializer` exactly for `list`, `ProductDetailsSerializer` exactly for `retrieve`, the write serializer for every other action |
| `ProductViews.ProductPermissions` | product/views.py:43-46 | a product action is permitted iff the caller is staff or the action is not create, update, partial_update or destroy |
| `ProductViews.ReviewPermissions` | product/views.py:56-61 | review `create` is permitted iff the caller is logged in; update, partial_update and destroy iff logged in and the author-or-admin check grants; anything else always |
| `ProductViews.ProductWriteNeedsAdmin` | product/views.py:44-45 | each product write yields exactly `[IsAdminUser]`, is permitted iff the caller is staff, and a non-staff caller is refused by `IsAdminUser` |
| `ProductViews.ProductOtherActionsPublic` | product/views.py:46 | every other product action, unlisted names included, yields the empty list and is permitted for every caller |
| `ProductViews.ProductPublicRoutes` | product/views.py:27-46 | among the product view-set's routed actions, exactly `list`, `retrieve` and `metadata` (OPTIONS) demand nothing |
| `ProductViews.ReviewCreateNeedsLogin` | product/views.py:57-58 | review `create` yields exactly `[IsAuthenticated]` and is permitted iff the caller is logged in |
| `ProductViews.ReviewMutationNeedsAuthor` | product/views.py:59-60 | review update, partial_update and destroy yield exactly `[IsAuthenticated, IsAuthorOrIsAdmin]` and are permitted iff both hold |
| `ProductViews.ReviewMutationExtendsCreate` | product/views.py:57-60 | a review mutation's list is create's list followed by the author check: login is judged first, and a caller allowed to mutate is allowed to create |
| `ProductViews.AnonymousMutationRefusedByLogin` | product/views.py:59-60 | an anonymous caller changing a review is refused by `IsAuthenticated`, whatever the author check would say |
| `ProductViews.NonAuthorMutationRefusedByAuthorCheck` | product/views.py:59-60 | a logged-in caller refused by the author check is refused by `IsAuthorOrIsAdmin` |
| `ProductViews.ReviewOtherActionsPublic` | product/views.py:61 | every review action other than the four listed, unlisted names included, yields the empty list and is permitted for every caller |
| `ProductViews.ReviewPublicRoutes` | product/views.py:49-64 | among the review view-set's routed actions, only the custom `reviews` action and `metadata` (OPTIONS) demand nothing |
| `ProductViews.AdminActionsUseWriteSerializer` | product/views.py:36-45 | every product action that demands an administrator is served by `CreateProductSerializer` |
| `ProductViews.ReadSerializersArePublic` | product/views.py:36-46 | the two read serializers are only ever chosen for `list` or `retrieve`, which every caller may use |
| `ProductFilter.Keep` | product/views.py:19-20 | one lookup keeps exactly the rows whose price passes it, and never adds rows |
| `ProductFilter.ApplyBound` | product/views.py:19-20 | one number filter: an absent parameter leaves the queryset unchanged; a given one keeps exactly the rows whose price passes its lookup |
| `ProductFilter.FilterQueryset` | product/views.py:18-24 | the filter set's queryset keeps exactly the rows whose price is within every given inclusive bound, and never adds rows |
| `ProductFilter.Select` | product/views.py:19-20 | the reference selection keeps exactly the rows whose price is within every given inclusive bound |
| `ProductFilter.KeepAppend` | product/views.py:19-20 | one lookup over a concatenation is the concatenation of the lookups: for an ordered queryset, row order is kept |
| `ProductFilter.FilterIsSelect` | product/views.py:18-24 | applying `price_from` (gte) and then `price_to` (lte) equals the single-pass inclusive range selection |
| `ProductFilter.FilterPreservesOrder` | product/views.py:18-24 | the filter distributes over concatenation, so for an ordered queryset the surviving rows keep their order |
| `ProductFilter.NoBoundsKeepsAll` | product/views.py:18-24 | with neither parameter given the queryset is unchanged |
| `ProductFilter.BoundsAreInclusive` | product/views.py:19-20 | a product priced exactly at either end of a non-empty range is in the filtered queryset |
| `ProductFilter.EmptyRangeSelectsNothing` | product/views.py:19-20 | a lower bound above the upper bound selects no product |
| `ProductFilter.FilterIdempotent` | product/views.py:18-24 | filtering a filtered queryset again with the same parameters changes nothing |
| `ProductFilter.BoundOrderIrrelevant` | product/views.py:18-24 | applying the two filters in the other order gives the same queryset |

## Left out

- `test_view` (product/views.py:14-15) returns a constant response and decides nothing.
- The body of the `reviews` action (product/views.py:65-68) only looks up an object, fetches its related reviews and serializes them. That work belongs to the ORM and the serializers, which are not part of this model. Only the action's permission entry is modelled.
- The search and ordering back-ends (product/views.py:30-34) pass field lists to framework filter classes. Their matching and ordering rules are framework code that is not part of this model.
- The meaning of `IsAuthorOrIsAdmin`: `product/permissions.py` is not part of this model. The claim that an administrator may always change any review rests on that file, so it is not proved here.
- The framework's split between object-level and view-level permission checks is not modelled. The author check's verdict is treated as known when the list is checked.
- Turning a refusal into a 401 or 403 response is framework behaviour. The model returns the first refusing class and does not say whether the framework answers 401 or 403. For example, an anonymous caller refused by `IsAdminUser` gets `Denied(IsAdminUser)`, though the framework would answer that caller as unauthenticated.
- Parsing the query string is not modelled. An absent or empty parameter is `None`. An unparsable number, which the framework rejects with a validation error, is not modelled.
- ProductFilter.KeepAppend, ProductFilter.FilterPreservesOrder: a queryset is modelled as a sequence. `Product.objects.all()` sets no ordering, and the ordering back-end acts only when asked. So the order these lemmas keep is promised only for an ordered queryset. For an unordered one, only the membership facts hold.
- Prices are exact decimals (`real`). The database's decimal precision and rounding are not modelled.
- The order migration (order/migrations/0002_auto_20210823_1921.py) holds schema metadata: the four status choices and the restrict-on-delete foreign key. The database and the ORM enforce it. There is no code in this repository that does.
- The commented-out notes at the end of product/views.py are not executable.
