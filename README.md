# Maktabati point of sale — a verified model of the cart, the pricing and the access rules

Maktabati is a single-page point-of-sale and inventory dashboard. This project models its few pieces of real logic in Dafny:

- **The checkout screen** (`src/pages/POS.tsx`).
  - Module `Cart` holds the pure cart transforms (add, remove, set quantity, set line discount) and the pricing (subtotal, then the global discount, then TVA).
  - Module `PosScreen` holds the product grid's search filter.
  - Class `PosScreen.PointOfSale` holds the screen's state cells: `cart`, `selectedClient`, `searchTerm`, `remiseGlobale`, `tva` and `typePaiement`. Each handler replaces some of them. `HandleCheckout` resets three: the cart, the client and the global discount.
  - The class keeps the invariant "one line per product, each holding at least one unit" (`Cart.WellFormed`).
  - Every cart operation is also described by its effect on `Cart.Lines`, the map from product id to line that the cart stands for.
- **The route guard and route table** (`src/App.tsx`). Module `Routing` gives each requested path and session a decision: spinner, redirect or screen.
- **The session store** (`src/contexts/AuthContext.tsx`). Class `Session.AuthProvider` holds `user`, `isLoading` and a map standing for `localStorage`. It keeps the stored `"user"` entry in agreement with `user` after a login whose record was saved, and after logout.
- **The catalog screen** (`src/pages/Products.tsx`). Module `Catalog` holds its search filter and its stock badge.
- **The navigation menu** (`src/components/Layout/Sidebar.tsx`). Module `Sidebar` holds the menu chosen by role, the highlighted entry and the avatar initials.

The helper modules are `Types` (the records of `src/types/index.ts`, plus `Option` and `Result`), `Strings` (ASCII `toLowerCase` and `includes`) and `Sequences` (`filter` and the subsequence relation).

Money and percentages are exact `real`s. Quantities and stock levels are `int`s. A user's role (`typeUser`) is a string compared exactly, as in the source.

Some things come in as parameters instead of being computed:

- the login request's outcome, as an `Option<User>`;
- whether `localStorage.setItem` succeeds when the login saves the user;
- the checkout's timestamp;
- the chosen client;
- the already-parsed numbers typed into the inputs.

Some behaviours of the code worth knowing:

- A line discount is stored unclamped, negative or above 100 included.
- The cashier role is the literal `'caissier'`, in lower case.
- The checkout grid searches the name and the bar code. The catalog table also searches the reference.

## Model

| member | source | states |
|---|---|---|
| Cart.AddToCart | src/pages/POS.tsx:25-41 | a product already in the cart gains exactly one unit on its line, with the length and every other line unchanged; otherwise one new line is appended at the end |
| Cart.RemoveFromCart | src/pages/POS.tsx:43-45 | the result is an order-preserving subsequence of the cart with no line for the id, keeping every other line; a cart without that id is returned unchanged |
| Cart.UpdateQuantity | src/pages/POS.tsx:47-57 | a quantity of zero or less is exactly `RemoveFromCart`; a positive one replaces only that line's quantity, keeps the length and is not checked against stock |
| Cart.UpdateItemRemise | src/pages/POS.tsx:59-65 | only the matching line's discount changes, to any value, negative or above 100 included; an absent id leaves the cart unchanged |
| Cart.LinesKeys | src/pages/POS.tsx:26 | a product has a line (`find` succeeds) iff its id is a key of the cart's map |
| Cart.LinesAt | src/pages/POS.tsx:26-27 | in a duplicate-free cart, each line's product id maps to that very line |
| Cart.LinesSize | src/types/index.ts:51-56 | a duplicate-free cart has exactly as many lines as its map has keys |
| Cart.AddToCartLines | src/pages/POS.tsx:25-41 | on the map view, adding bumps the product's line by one or creates it with `NewLine`, and no other key changes |
| Cart.RemoveFromCartLines | src/pages/POS.tsx:43-45 | on the map view, removing deletes exactly that product's key |
| Cart.UpdateQuantityLines | src/pages/POS.tsx:47-57 | on the map view, a non-positive quantity deletes the key; a positive one sets the quantity under that key if present, and an absent key stays absent |
| Cart.UpdateItemRemiseLines | src/pages/POS.tsx:59-65 | on the map view, only the discount under that key changes, if the key is present |
| Cart.AddToCartWellFormed | src/pages/POS.tsx:25-41 | adding keeps at most one line per product and at least one unit per line |
| Cart.RemoveFromCartWellFormed | src/pages/POS.tsx:43-45 | removing keeps the cart well formed |
| Cart.UpdateQuantityWellFormed | src/pages/POS.tsx:47-57 | setting a quantity keeps the cart well formed |
| Cart.UpdateItemRemiseWellFormed | src/pages/POS.tsx:59-65 | setting a line discount keeps the cart well formed |
| Cart.SubseqUnique | src/pages/POS.tsx:44 | any subsequence that a filter leaves of a well-formed cart is well formed |
| Cart.AddRepeatedlyFresh | src/pages/POS.tsx:25-41 | n ≥ 1 adds of a product not yet in the cart append a single line holding n units |
| Cart.AddRepeatedlyFromEmpty | src/pages/POS.tsx:33-40 | from an empty cart, n adds of one product give exactly one line of quantity n |
| Cart.MinusOnLastUnitRemoves | src/pages/POS.tsx:192 | the minus button on a line holding one unit removes that line |
| Cart.LineNet | src/pages/POS.tsx:69-71 | a line costs quantity × price × (1 − discount/100) |
| Cart.Total | src/pages/POS.tsx:75-81 | the total is subtotal × (1 − global discount/100) × (1 + TVA/100), with the discount applied before the tax |
| Cart.Subtotal | src/pages/POS.tsx:67-73 | an empty cart's subtotal is 0, and a cart whose every line is worth at least 0 has a subtotal of at least 0 |
| Cart.SubtotalFolds | src/pages/POS.tsx:67-73 | the left fold computed by `reduce` equals the sum read from the first line on: the first line's net plus the subtotal of the rest |
| Cart.SubtotalAppend | src/pages/POS.tsx:67-73 | the subtotal of two carts laid end to end is the sum of their subtotals |
| Cart.SubtotalPermutation | src/pages/POS.tsx:67-73 | the subtotal is the same for any reordering of the lines |
| Cart.SubtotalDependsOnlyOnLines | src/pages/POS.tsx:67-73 | two duplicate-free carts with the same map of lines have the same subtotal, whatever order of operations built them |
| Cart.TotalNeutral | src/pages/POS.tsx:67-81 | with no global discount and no TVA the total equals the subtotal; an empty cart totals 0 |
| Cart.WorkedExample | src/pages/POS.tsx:67-81 | 2 × 100 at 10% off plus 1 × 50 give a subtotal of 230; with 10% global discount and 20% TVA the total is 248.4 |
| Sequences.Filter | src/pages/POS.tsx:44 | `filter` returns an order-preserving subsequence of its input, every element of which passes the test, holding every element that passes |
| Sequences.FilterMultiset | src/pages/POS.tsx:44 | `filter` keeps every copy of an element that passes and no copy of one that fails |
| Sequences.FilterPresent | src/pages/POS.tsx:20-23 | `xs?.filter(keep)`, falling back to `[]`, is empty while the list is `null`, and otherwise an order-preserving subsequence holding exactly the copies that pass |
| Sequences.FilterPresentKeepsAll | src/pages/Products.tsx:12-16 | when every element passes, the whole list comes back |
| Strings.ToLower | src/pages/Products.tsx:13 | lower-casing keeps the length, maps each ASCII capital to its small letter, leaves everything else, and leaves no capital |
| Strings.IncludesIff | src/pages/Products.tsx:13-15 | `includes` holds iff the term occurs at some offset of the text |
| Strings.IncludesLonger | src/pages/Products.tsx:13-15 | a term longer than the text is never included |
| PosScreen.FilteredProducts | src/pages/POS.tsx:20-23 | the grid shows, in catalog order and with every copy, exactly the products whose lower-cased name contains the lower-cased term or whose bar code contains the term as typed, and nothing while the catalog is `null` |
| PosScreen.EmptySearchShowsAll | src/pages/POS.tsx:20-23 | an empty search term shows every product |
| PosScreen.PointOfSale.constructor | src/pages/POS.tsx:10-15 | the screen starts with an empty cart, no client, an empty search, 0% global discount, 20% TVA and cash payment |
| PosScreen.PointOfSale.CalculateSubtotal | src/pages/POS.tsx:255-258 | the displayed subtotal is the sum of the lines' net amounts, first line first, and 0 for an empty cart |
| PosScreen.PointOfSale.CalculateTotal | src/pages/POS.tsx:75-81 | the displayed total is the displayed subtotal with the global discount and then TVA applied |
| PosScreen.PointOfSale.AddToCart | src/pages/POS.tsx:25-41 | the cart becomes `Cart.AddToCart` of the old cart; the invariant holds and no other cell changes |
| PosScreen.PointOfSale.RemoveFromCart | src/pages/POS.tsx:43-45 | the cart becomes `Cart.RemoveFromCart` of the old cart; the invariant holds and no other cell changes |
| PosScreen.PointOfSale.UpdateQuantity | src/pages/POS.tsx:47-57 | the cart becomes `Cart.UpdateQuantity` of the old cart; the invariant holds and no other cell changes |
| PosScreen.PointOfSale.UpdateItemRemise | src/pages/POS.tsx:59-65 | the cart becomes `Cart.UpdateItemRemise` of the old cart; the invariant holds and no other cell changes |
| PosScreen.PointOfSale.SelectClient | src/pages/POS.tsx:163-166 | the chosen client, or none, becomes the selected client |
| PosScreen.PointOfSale.SetSearchTerm | src/pages/POS.tsx:122 | the typed text becomes the search term |
| PosScreen.PointOfSale.SetRemiseGlobale | src/pages/POS.tsx:227 | the parsed value becomes the global discount |
| PosScreen.PointOfSale.SetTva | src/pages/POS.tsx:236 | the parsed value becomes the TVA rate |
| PosScreen.PointOfSale.SetTypePaiement | src/pages/POS.tsx:244 | the chosen kind becomes the payment kind |
| PosScreen.PointOfSale.HandleCheckout | src/pages/POS.tsx:83-105 | an empty cart is refused with "Le panier est vide" and changes nothing; otherwise the snapshot holds the old cart, its total, the old rates, payment kind and client id and the given date; afterwards the cart is empty, no client is selected and the global discount is 0, while TVA, the payment kind and the search stay |
| PosScreen.CheckoutTwice | src/pages/POS.tsx:83-105 | a checkout of a non-empty cart succeeds with the cart's lines, and an immediate second checkout is refused as empty |
| Routing.ProtectedRoute | src/App.tsx:12-25 | spinner iff loading; redirect to `/login` iff not loading and no user; redirect to `/` iff a user's role differs from a non-empty required role; the children otherwise |
| Routing.Match | src/App.tsx:34-60 | only `/`, `/produits` and `/caisse` lead to a screen: the first two guarded by `'Admin'`, the last by `'caissier'`; `/login` and every other path navigate home |
| Routing.AppRoutes | src/App.tsx:27-63 | spinner iff loading; the login form on every path iff not loading and no user; a screen is rendered only for a user holding the role its route is guarded by; every redirect goes to `/` |
| Routing.AdminRoutes | src/App.tsx:38-47 | an administrator sees the dashboard at `/` and the products at `/produits`, and is sent home from any other path |
| Routing.CashierRoutes | src/App.tsx:49-60 | a cashier sees the checkout at `/caisse` and is sent to `/` from every other path, `/` included |
| Routing.CashierHomeNeverSettles | src/App.tsx:22-45 | following the cashier's redirect at `/` any number of times never leaves the redirect: a fixed point, never a render |
| Routing.AdminAlwaysSettles | src/App.tsx:33-60 | for an administrator every path reaches a screen after at most one redirect |
| Routing.OtherRoleRendersNothing | src/App.tsx:33-60 | a signed-in user holding neither role is redirected home from every path |
| Session.UseAuth | src/contexts/AuthContext.tsx:20-26 | inside a provider the hook yields the provider's value; outside one it fails with "useAuth must be used within an AuthProvider" |
| Session.AuthProvider.constructor | src/contexts/AuthContext.tsx:32-34 | the store starts with no user and not loading, over whatever was persisted |
| Session.AuthProvider.Restore | src/contexts/AuthContext.tsx:66-72 | a stored `"user"` record becomes the user, so store and user agree; an absent or empty entry leaves the user unchanged; any other stored text leaves the user unchanged and the effect fails with the `SyntaxError` of `JSON.parse`, exactly in that case |
| Session.AuthProvider.BeginLogin | src/contexts/AuthContext.tsx:36-38 | while the request is in flight the store reports loading |
| Session.AuthProvider.CompleteLogin | src/contexts/AuthContext.tsx:39-58 | a response sets the user; if `setItem` succeeds the stored `"user"` record is set too, the two agree and the login succeeds; if `setItem` throws, storage is unchanged and the login fails with "Identifiants invalides"; a failed request yields "Identifiants invalides" and changes neither; loading ends either way |
| Session.AuthProvider.Login | src/contexts/AuthContext.tsx:36-59 | the whole login succeeds iff the request succeeds and the record is saved, and then store and user agree; every failure is "Identifiants invalides" with storage unchanged; a failed request keeps an existing agreement between store and user |
| Session.AuthProvider.Logout | src/contexts/AuthContext.tsx:61-64 | the user is cleared and only the `"user"` key is removed, so store and user agree; when not loading, every path then shows the login form |
| Session.LoginThenLogout | src/contexts/AuthContext.tsx:36-64 | signing in then out leaves no user and exactly the storage from before, minus the `"user"` key, whether or not the record was saved |
| Catalog.FilteredProducts | src/pages/Products.tsx:12-16 | the table lists, in catalog order and with every copy, exactly the products whose lower-cased name or reference contains the lower-cased term, or whose bar code contains the term as typed; nothing while the catalog is `null` |
| Catalog.EmptySearchListsAll | src/pages/Products.tsx:12-16 | an empty search term lists every product |
| Catalog.NameAndReferenceCaseBlind | src/pages/Products.tsx:13-15 | changing the letter case of a product's name or reference never changes whether it matches |
| Catalog.BarCodeCaseSensitive | src/pages/Products.tsx:14 | the bar code match depends on case: "ABC" finds bar code "ABC" and "abc" does not |
| Catalog.StockBadge | src/pages/Products.tsx:86-92 | the badge is green iff stock > 10, yellow iff 5 < stock ≤ 10, red iff stock ≤ 5 |
| Sidebar.MenuItems | src/components/Layout/Sidebar.tsx:24-41 | an administrator gets the 9-entry menu starting at `/`; anyone else, nobody included, gets `/caisse` and `/facture`; the paths of either menu are distinct |
| Sidebar.IsActive | src/components/Layout/Sidebar.tsx:57 | an entry is highlighted iff the current path has its path's length and the same character at every position: no prefix match, no case folding |
| Sidebar.AtMostOneActive | src/components/Layout/Sidebar.tsx:56-57 | for any current path, at most one menu entry is highlighted |
| Sidebar.Initials | src/components/Layout/Sidebar.tsx:80 | the initials are the surname's first character then the given name's; an empty name adds nothing and no user shows nothing |

## Left out

- The network is not modelled. This covers the `axios` calls of `src/hooks/useApi.ts` (`useApi`, `useApiMutation`) and the sign-in POST in `src/contexts/AuthContext.tsx:39-47`. The sign-in result is an input, `None` for any failure.
- Concurrency and await ordering are not modelled: overlapping requests whose responses arrive out of order, and a double click on checkout before React re-renders. The model is sequential, so a second checkout already sees the emptied cart.
- JavaScript number behaviour is not modelled. This covers IEEE-754 rounding, `toFixed(2)` for display (src/pages/POS.tsx:257, 261) and `parseFloat(...) || 0` parsing of the inputs (src/pages/POS.tsx:212, 227, 236). Money is exact `real` and inputs arrive already parsed.
- `new Date().toISOString()` is not modelled; the date is a parameter of `HandleCheckout`. `console.log` and the toast notifications are not modelled; the empty-cart notice is returned as an error value instead.
- `JSON.stringify` and `JSON.parse` of the stored user are an identity round trip. A stored value is a user record or plain text; the empty text is the one falsy value. Non-empty plain text is treated as text that `JSON.parse` rejects, so `Restore` reports a `SyntaxError`. A stored JSON value that is not a user record (such as `null` or `42`) would parse in the source; that case is not modelled.
- Sidebar.Initials: takes the first Unicode character of each name, where JavaScript's `nom[0]` takes the first UTF-16 code unit. For a name starting outside the Basic Multilingual Plane the source shows a lone high surrogate and the model the whole character, because Dafny strings hold Unicode scalar values and have no code units.
- `toLowerCase` is modelled over ASCII only: Unicode case mapping is not modelled.
- The router itself is not modelled: history replacement and React Router's matching, which ignores letter case and trailing slashes. Paths are matched exactly. `Routing.Settle` approximates re-routing after a `<Navigate>`.
- The product's optional nested `category` record is not modelled (src/types/index.ts:20).
- The client drop-down's `parseInt` and `find` are not modelled (src/pages/POS.tsx:164). `SelectClient` takes the resulting client directly.
- `src/components/Auth/LoginForm.tsx` is not modelled. It is form validation through `yup` and `react-hook-form`, plus a toast.
- Presentational components with no logic are not modelled: `src/pages/Dashboard.tsx`, `src/components/Layout/Header.tsx`, `src/components/Layout/Layout.tsx`, `src/components/Charts/AnalyticsChart.tsx` and `src/components/UI/LoadingSpinner.tsx`.
