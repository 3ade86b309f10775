# Admin dashboard: access policy and order logic in Dafny

This project models the decision and data logic of a small e-commerce admin
dashboard. The rest of the dashboard is glue between an authentication
provider and a hosted content store. Three pieces are modelled:

- **Route access policy** (`AccessPolicy`, from `middleware.ts`). A total
  function `Decide(path, identity)` returns `Allow` or `Redirect(target)`.
  Rules are tried in order and the first match wins: the two public routes
  `"/"` and `"/sign-in"` (exact equality); then every path with the raw string
  prefix `"/admin"`, which needs a signed-in caller with a truthy admin flag;
  then everything else, which passes.
- **Client-side admin guard** (`AuthRedirect`, from
  `src/components/AuthRedirect.tsx`). `Guard(isLoaded, isSignedIn, isAdmin)`
  returns `NoNavigation` or `Push(target)`. Once loaded, it agrees with the
  middleware on every `/admin` path.
- **Order list state** (`Dashboard` and `OrdersGraph`, from
  `src/app/admin/page.tsx`). This covers the order count and revenue cards,
  the delete handler's state transition, and the per-day chart data.

Modelling choices:

- Identities carry `userId: Option<string>` and `isAdmin: Option<bool>`.
  The source uses JavaScript truthiness. So a missing or empty user id means
  signed out. An admin flag that is absent or `false` means "not an admin".
- Prices are integer cents (`Option<int>`). A missing price adds 0, as
  `totalPrice || 0` does.
- A creation date is an abstract ordered day number, `Day = int`.
- The chart's grouping object is a sequence of `Bar(date, orders)` entries.
  Keys stay in first-insertion order, as a JavaScript object keeps string
  keys. The sort that follows is an insertion sort on the day key.
- The delete handler's inputs are the `window.confirm` result and the request
  outcome (`Ok`, `NotOk`, `Threw`). Its output records three things: the new
  order list, the id posted to the delete endpoint (if a request was made),
  and the alert shown (if any).

Behaviour worth noting:

- A successful delete keeps the orders whose id differs. If several orders
  share the id, all of them go.
- The chart orders its bars by parsing the locale date strings back into
  dates. The model assumes this parse preserves calendar order.
- The page takes the delete endpoint's response as given; the model takes it
  as an input.

## Model

| member | source | states |
|---|---|---|
| AccessPolicy.Decide | middleware.ts:4-33 | Allow exactly when the path is public, is not under the `/admin` prefix, or the caller is signed in with a truthy admin flag. Redirect to `/sign-in` exactly for a gated, non-public path with no signed-in caller. Redirect to `/` exactly for a gated path whose signed-in caller is not an admin. No other redirect target is ever produced. |
| AccessPolicy.PublicRoutesAllowed | middleware.ts:9-14 | `/` and `/sign-in` are allowed whatever the identity. |
| AccessPolicy.SignInChildNotPublic | middleware.ts:12-32 | Public matching is exact: `/sign-in/x` is not public, yet it is allowed because it is not under `/admin`. |
| AccessPolicy.PublicRoutesNeverGated | middleware.ts:9-17 | No public route starts with `/admin`, so the first two rules never compete. |
| AccessPolicy.AnonymousGatedToSignIn | middleware.ts:17-21 | A gated path with no user id redirects to `/sign-in`, whatever the admin flag. |
| AccessPolicy.NonAdminGatedToHome | middleware.ts:25-28 | A gated path with a user id and an absent or false admin flag redirects to `/`. |
| AccessPolicy.AbsentFlagIsFalse | middleware.ts:25-27 | An absent admin flag and a false one give the same decision on every path. |
| AccessPolicy.AdminGatedAllowed | middleware.ts:17-32 | A gated path with a user id and a true admin flag is allowed. |
| AccessPolicy.GatedPolicy | middleware.ts:17-32 | On every gated path the decision is Allow if and only if the caller is signed in with a truthy admin flag. |
| AccessPolicy.RawPrefixGate | middleware.ts:17 | `/administrator`, `/admin-x` and `/admin` get the same decision as `/admin/orders` for every identity. |
| AccessPolicy.UngatedAllowed | middleware.ts:31-32 | A path that is neither public nor under `/admin` is allowed whatever the identity. |
| AccessPolicy.Scenarios | middleware.ts:17-28 | An anonymous caller on `/admin/orders` goes to `/sign-in`. A signed-in non-admin on `/admin` goes to `/`. |
| AuthRedirect.Guard | src/components/AuthRedirect.tsx:11-19 | Nothing happens until loaded. Once loaded: push `/sign-in` exactly when signed out, and push `/` exactly when signed in without a truthy admin flag. Otherwise stay. The only push targets are `/sign-in` and `/`. |
| AuthRedirect.GuardMatchesMiddleware | src/components/AuthRedirect.tsx:14-17 | Once loaded, the guard's outcome (staying put read as Allow) equals the middleware's decision on any `/admin` path for the same identity. |
| Dashboard.Summarize | src/app/admin/page.tsx:115-119 | The order count is the list length. The revenue computed by the left fold equals the reference sum of prices, with a missing price counting as 0. |
| Dashboard.Price | src/app/admin/page.tsx:117 | An order adds 0 exactly when its price is missing or 0, and otherwise adds its price. |
| Dashboard.Revenue | src/app/admin/page.tsx:116-119 | The revenue fold from any start value equals that value plus the reference sum of prices. |
| Dashboard.SumPricesAppend | src/app/admin/page.tsx:116-119 | The price sum of a concatenation is the sum of the parts' price sums. |
| Dashboard.RevenueAdditive | src/app/admin/page.tsx:115-119 | Revenue over no orders is 0. Revenue and count are both additive over concatenation. |
| Dashboard.MissingPriceIsZero | src/app/admin/page.tsx:117 | Replacing a missing price by 0 leaves the revenue unchanged. |
| Dashboard.TotalsExamples | src/app/admin/page.tsx:115-119 | 10.50 + 5.00 gives 15.50. Two orders of 20.00 and 30.00 give count 2 and revenue 50.00. A missing price adds nothing. |
| Dashboard.RemoveId | src/app/admin/page.tsx:105 | After filtering by id, every remaining order comes from the input and has a different id. Every input order with a different id remains. The new length is the old length minus the number of orders with that id. |
| Dashboard.RemoveIdAppend | src/app/admin/page.tsx:105 | Filtering distributes over concatenation, so the kept orders stay in their original relative order. |
| Dashboard.RemoveIdSingle | src/app/admin/page.tsx:105 | One order is dropped if it has the id and kept otherwise. |
| Dashboard.RemoveIdAbsent | src/app/admin/page.tsx:105 | Filtering by an id that no order carries returns the list unchanged. |
| Dashboard.RemoveIdIdempotent | src/app/admin/page.tsx:105 | Filtering twice by the same id equals filtering once. |
| Dashboard.HandleDelete | src/app/admin/page.tsx:94-113 | Unconfirmed: nothing changes, no request is made and no alert is shown. Confirmed: the id is posted. On an ok response, the list becomes the id-filtered list (the orders with other ids, in order) and there is no alert. On a failed response the list is unchanged and "Failed to delete order" is shown; on a thrown request the list is unchanged and "Error deleting order" is shown. The list never grows. |
| Dashboard.SuccessfulDelete | src/app/admin/page.tsx:104-105 | A successful delete leaves the filtered list, and repeating the delete changes nothing further. |
| Dashboard.DeleteMissingId | src/app/admin/page.tsx:104-111 | Deleting an id that no order carries never changes the list, whatever the confirm result and response. |
| Dashboard.DeleteTotals | src/app/admin/page.tsx:105-119 | After a successful delete, the count drops by the number of orders with that id and the revenue drops by their prices. |
| OrdersGraph.Bump | src/app/admin/page.tsx:29 | A write to the per-day table adds 1 to that day's count and leaves every other day unchanged. It adds the day to the keys, keeps keys distinct and counts positive, and raises the total by 1. |
| OrdersGraph.Tally | src/app/admin/page.tsx:27-31 | The grouping fold adds to each day's count the number of orders created on that day, and adds those days to the keys. It keeps keys distinct and raises the total by the number of orders. |
| OrdersGraph.OrdersByDate | src/app/admin/page.tsx:27-31 | The per-day table has distinct keys. Its keys are exactly the orders' days. It maps each day to the number of orders on it. All counts are at least 1, and together they sum to the number of orders. |
| OrdersGraph.Insert | src/app/admin/page.tsx:35 | Inserting a bar for a new day into an ascending sequence keeps it strictly ascending. It adds exactly that bar, and the total grows by the bar's count. |
| OrdersGraph.SortByDate | src/app/admin/page.tsx:34-35 | Sorting a table with distinct days gives a strictly ascending sequence with exactly the same bars, days, length and total. |
| OrdersGraph.Histogram | src/app/admin/page.tsx:27-39 | The chart data has one bar per distinct creation day, in strictly ascending day order. Each bar's height is the number of orders on that day, so at least 1. The heights sum to the number of orders. |
| OrdersGraph.Lookup | src/app/admin/page.tsx:29 | Reading a day that is no key gives 0. Reading a key of a table whose counts are positive gives at least 1. |
| OrdersGraph.LookupMember | src/app/admin/page.tsx:29 | With distinct keys, reading a bar's day from the table gives that bar's count. |
| OrdersGraph.CountOnPositive | src/app/admin/page.tsx:27-31 | A day has at least one order exactly when it is one of the orders' creation days. |
| OrdersGraph.HistogramExample | src/app/admin/page.tsx:27-39 | Two orders on the same day make one bar of height 2. Bars come out in ascending day order. |

## Left out

- The route matcher configuration (`middleware.ts:35-44`) is left out. It is a path pattern that the web framework interprets, so requests outside it never reach `Decide`.
- The authentication provider's calls (`getAuth`, `useUser`, the sign-in widget) are left out. Their results enter the model only as input values.
- AccessPolicy.Decide: admin flags that are truthy but not the boolean `true` (such as a non-empty string) are not modelled. The flag is an `Option<bool>`.
- AuthRedirect.GuardMatchesMiddleware assumes the client and the server see the same identity. The middleware reads the user id and the session claims' `isAdmin`; the guard reads the client's `isSignedIn` and the user object's `isAdmin`. The lemma feeds the guard `SignedIn(who)` and `who.isAdmin`, so it says nothing when the two sides disagree.
- The delete endpoint (`src/app/api/deleteOrder/route.ts`) is left out. It wraps a store delete and a cache revalidation, both foreign calls, and its outcome is an input to `HandleDelete`.
- The store client configuration (`src/sanity/lib/client.ts`) is left out because it is only environment wiring.
- The sign-in page's single redirect of signed-in users to `/admin` is left out.
- Fetching orders is left out: the store-side query, its creation-time descending order, and the handler that logs a failed fetch and keeps the old list. The model starts from the fetched sequence.
- Rendering, currency formatting, `toFixed` and locale date formatting are left out. Dates become an ordered day number, and the model assumes that parsing the formatted date back preserves calendar order.
- Floating-point prices are left out. Prices are integer cents.
- The `console.error` logging of a failed delete request is left out; only the alert it accompanies is recorded.
- Races are left out: the stale `orders` captured by the delete handler, overlapping fetches, and the blocking `confirm` and `alert` dialogs. The confirm result is a boolean parameter, and the alert is recorded as its message.
