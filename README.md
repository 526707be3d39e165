# Storefront cart store, credential checks and product search

A Dafny model of the core of a React Native storefront app:

- **The cart store** (`context/CartContext.jsx`). The store keeps an ordered list of cart lines, where each line is a product record plus a `quantity`. It offers `addToCart`, `removeFromCart`, `updateQuantity` (`"inc"`/`"dec"`), `clearCart` and a derived `totalPrice`.
  - Each update is a pure function of the previous list. These functions live in `CartLines` (`cart_lines.dfy`). Their laws live in `CartLaws` (`cart_laws.dfy`): where a line moves or changes, how the total moves, and that two invariants survive every update. The invariants are: ids are unique, and every quantity is at least 1.
  - The provider is a class, `CartStore.CartProvider` (`cart_provider.dfy`). It holds `cart` and `loading`, plus an abstract storage cell for the key `"cart"`. Its methods apply the updaters, then run the write-through effect. That effect writes the cart to storage only once `loading` is false. The one-time load replaces the cart with a saved record when there is one, and always clears `loading`.
- **The credential validators** of `screens/LoginScreen.jsx` and `screens/SignupScreen.jsx` (`validation.dfy`). Each is an ordered chain of checks, and the first failing check decides the message. Both are proved equal to one reference rule, `FirstFailure`. The button handlers return the alerts and route replacements they would perform.
- **The search filter** `filteredProducts` of `screens/HomeScreen.jsx` (`catalog_search.dfy`). A blank or whitespace-only search returns the products unchanged. Otherwise the result is the order-preserving subsequence of products whose lower-cased title contains the lower-cased search. `toLowerCase` is a function parameter about which nothing is assumed. `trim` uses the ECMAScript whitespace set.

Prices are integers (cents). Product ids are integers. `Products.Product` carries `id`, `title` (optional, since the search guards it with `?.`), `price` and `image`.

On a repeat product, `addToCart` bumps the existing line and ignores the new record's price. So the total rises by the stored line's price (`CartLaws.TotalAfterAddExisting`), not necessarily by `p.price`.

A line added once has quantity 1. So the first `"dec"` on it removes the line, and a second `"dec"` on the same id finds nothing and changes nothing (`CartLaws.DecrementToDelete`).

## Model

| member | source | states |
|---|---|---|
| `CartLines.HasId` | context/CartContext.jsx:36 | `find` succeeds exactly when some line carries the id |
| `CartLines.IncrementMatching` | context/CartContext.jsx:39-43 | same length; each line with the id keeps its product and gains exactly 1 in quantity; every other line is unchanged |
| `CartLines.AddToCart` | context/CartContext.jsx:34-47 | afterwards a line with the product's id exists; the length is unchanged when the id was present and one more otherwise |
| `CartLaws.AddMergesExisting` | context/CartContext.jsx:36-43 | with unique ids and line k holding `p.id`, the result is the old cart with only line k's quantity raised by 1, in place |
| `CartLaws.AddAppendsNew` | context/CartContext.jsx:46 | when no line has `p.id`, the result is the old cart with `{...p, quantity: 1}` appended at the end |
| `CartLaws.AddPreservesValid` | context/CartContext.jsx:34-47 | adding keeps ids unique and quantities at least 1 |
| `CartLines.RemoveFromCart` | context/CartContext.jsx:50-52 | never longer than the old cart; a no-op when no line has the id |
| `CartLaws.RemoveMembers` | context/CartContext.jsx:51 | keeps exactly the lines whose id differs from the removed id |
| `CartLaws.RemoveAt` | context/CartContext.jsx:50-52 | with unique ids, removing line k's id drops exactly line k and keeps the rest in their original order |
| `CartLaws.RemovePreservesValid` | context/CartContext.jsx:50-52 | removing keeps ids unique and quantities at least 1 |
| `CartLines.Step` | context/CartContext.jsx:57-70 | the callback returns `null` exactly for the line with the id under "dec" at quantity 1; other ids and unknown types pass the line through; a kept line keeps its product, and a quantity of at least 1 stays at least 1 |
| `CartLines.Compact` | context/CartContext.jsx:71 | `filter(Boolean)` never lengthens the list, and keeps its length exactly when no entry is `null` |
| `CartLines.UpdateQuantity` | context/CartContext.jsx:55-73 | the cart never grows; it shrinks exactly when the type is "dec" and a line with the id has quantity 1 |
| `CartLaws.CompactMembers` | context/CartContext.jsx:71 | `filter(Boolean)` keeps exactly the non-null lines |
| `CartLaws.UpdateIncIsIncrement` | context/CartContext.jsx:56-72 | `updateQuantity(id, "inc")` equals the +1 map used by `addToCart`, for any cart |
| `CartLaws.UpdateIncAt` | context/CartContext.jsx:58-61 | with unique ids, "inc" on line k raises only its quantity by 1 and keeps its position |
| `CartLaws.UpdateNoOp` | context/CartContext.jsx:57-70 | an absent id, or a type other than "inc"/"dec", returns the cart unchanged |
| `CartLaws.UpdateDecAt` | context/CartContext.jsx:63-71 | with unique ids, "dec" on line k removes it when its quantity is 1, otherwise lowers it by 1 in place |
| `CartLaws.DecOfOneIsRemove` | context/CartContext.jsx:63-71 | decrementing a line of quantity 1 is the same as `removeFromCart` of its id |
| `CartLaws.UpdatePreservesValid` | context/CartContext.jsx:55-73 | every `updateQuantity` keeps ids unique and quantities at least 1 |
| `CartLines.ClearCart` | context/CartContext.jsx:76-78 | the cleared cart satisfies both invariants and totals 0 |
| `CartLines.TotalPrice` | context/CartContext.jsx:80-83 | the reduce started at 0 equals the sum of price × quantity over the lines |
| `CartLines.Reduce` | context/CartContext.jsx:80-83 | the left fold from any accumulator is that accumulator plus the right-recursive sum of price × quantity |
| `CartLaws.TotalAfterAddExisting` | context/CartContext.jsx:36-43 | adding a product already in line k raises the total by line k's price |
| `CartLaws.TotalAfterAddNew` | context/CartContext.jsx:46 | adding a new product raises the total by its price |
| `CartLaws.TotalAfterRemove` | context/CartContext.jsx:51 | removing line k lowers the total by its price × quantity |
| `CartLaws.TotalAfterInc` | context/CartContext.jsx:59-61 | "inc" raises the total by the line's price |
| `CartLaws.TotalAfterDec` | context/CartContext.jsx:63-67 | "dec" lowers the total by the line's price, whether or not the line is removed |
| `CartLaws.AddTwiceMerges` | context/CartContext.jsx:34-47 | adding one product of price 10.00 twice gives a single line of quantity 2 and total 20.00 |
| `CartLaws.DecrementToDelete` | context/CartContext.jsx:55-73 | add products 1 and 2, decrement 1 twice: only product 2's line remains, total 5.00 |
| `CartStore.CartProvider.constructor` | context/CartContext.jsx:7-8 | a fresh provider has an empty cart, `loading` true, and leaves storage untouched |
| `CartStore.CartProvider.TotalPrice` | context/CartContext.jsx:80-83 | the provider's total is the sum over its current lines |
| `CartStore.CartProvider.WriteThrough` | context/CartContext.jsx:28-32 | nothing is written while `loading`; otherwise storage holds the current cart |
| `CartStore.CartProvider.LoadCart` | context/CartContext.jsx:11-26 | `loading` ends false on every outcome; a saved cart replaces the cart; a missing or unreadable record leaves it as it was; the cart is then written back; the invariants are kept |
| `CartStore.CartProvider.AddToCart` | context/CartContext.jsx:34-48 | the cart becomes `addToCart` of the old one; storage changes only when not loading; the invariants are kept |
| `CartStore.CartProvider.RemoveFromCart` | context/CartContext.jsx:50-52 | the cart becomes `removeFromCart` of the old one; storage changes only when not loading; the invariants are kept |
| `CartStore.CartProvider.UpdateQuantity` | context/CartContext.jsx:55-73 | the cart becomes `updateQuantity` of the old one; storage changes only when not loading; the invariants are kept |
| `CartStore.CartProvider.ClearCart` | context/CartContext.jsx:76-78 | the cart becomes empty with total 0; storage changes only when not loading |
| `CartStore.RestartRestoresCart` | context/CartContext.jsx:11-32 | a second provider on the same storage loads exactly the cart the first one last held |
| `CartStore.AddDuringLoad` | context/CartContext.jsx:11-32 | an add made before loading finishes writes nothing and is replaced by the saved cart |
| `Validation.Utf16Length` | screens/LoginScreen.jsx:14 | `length` counts UTF-16 units: at least the character count, at most twice it |
| `Validation.FirstFailure` | screens/SignupScreen.jsx:23-41 | an ordered chain accepts exactly when every check passes; otherwise it reports the message of a failing check with every earlier check passing |
| `Validation.LoginValidate` | screens/LoginScreen.jsx:9-19 | accepts exactly when the email contains "@" and the password has at least 6 units; a missing "@" is reported first |
| `Validation.LoginIsFirstFailure` | screens/LoginScreen.jsx:10-17 | login `validate` is the first-failure rule over (email, length), email first |
| `Validation.HandleLogin` | screens/LoginScreen.jsx:21-25 | replaces the route with "Home" exactly when `validate` accepts; otherwise performs only the one alert |
| `Validation.SignupValidate` | screens/SignupScreen.jsx:23-41 | accepts exactly when all four checks pass; a missing "@" is reported first |
| `Validation.SignupIsFirstFailure` | screens/SignupScreen.jsx:24-39 | signup `validate` is the first-failure rule over email, length, match, terms in that order |
| `Validation.HandleSignup` | screens/SignupScreen.jsx:43-48 | the success alert and `replace("Login")` happen exactly when `validate` accepts; otherwise exactly one alert, the failing check's |
| `Validation.SignupAcceptedLogsIn` | screens/SignupScreen.jsx:24-31 | credentials the signup validator accepts are accepted by the login validator |
| `CatalogSearch.TrimStart` | screens/HomeScreen.jsx:62 | the result starts with no whitespace, and is empty exactly when the input is all whitespace |
| `CatalogSearch.TrimEnd` | screens/HomeScreen.jsx:62 | the result ends with no whitespace, and is empty exactly when the input is all whitespace |
| `CatalogSearch.Trim` | screens/HomeScreen.jsx:62 | `trim()` is never longer than its input, neither starts nor ends with whitespace, and is empty (so `!search.trim()` holds) exactly when the input is whitespace only |
| `CatalogSearch.Includes` | screens/HomeScreen.jsx:64 | the empty needle is always included, and so is any prefix of the haystack; an included needle is no longer than the haystack |
| `CatalogSearch.Matches` | screens/HomeScreen.jsx:64 | null entries and untitled products never match; a search that lower-cases to "" matches every titled product |
| `CatalogSearch.KeepMatching` | screens/HomeScreen.jsx:63-65 | an order-preserving subsequence; every kept entry matches; every matching entry is kept as often as it occurs |
| `CatalogSearch.FilteredProducts` | screens/HomeScreen.jsx:61-66 | a blank search returns the products unchanged; otherwise an order-preserving subsequence, sound and complete for the lower-cased containment test |
| `CatalogSearch.UntitledDropped` | screens/HomeScreen.jsx:64 | for a non-blank search, null entries and products without a title are dropped |
| `CatalogSearch.UntrimmedSearch` | screens/HomeScreen.jsx:62-64 | matching uses the untrimmed search: "shirt " drops a product titled "shirt" that "shirt" keeps |

## Left out

- AsyncStorage and JSON (context/CartContext.jsx:14-16, 30). Storage is a cell holding `Missing`, `Saved(cart)` or `Unreadable`. Saving and reloading therefore round-trip by construction. A record that parses to something other than a list of lines (`"null"`, say) is not modelled.
- Failed and overlapping saves. `AsyncStorage.setItem` (context/CartContext.jsx:30) is neither awaited nor caught, so a failed write leaves the old record in storage. The model has no failed-write path: every write lands at once and in order. `CartStore.RestartRestoresCart` holds only because of that. The lost-update race between overlapping `setItem` calls is not modelled either.
- React hooks and effect scheduling. The write effect is modelled as `WriteThrough`, run at the end of every state change. This matches what the effect does: each updater returns a new array, so `cart` always changes and the effect always runs.
- `CartStore.CartProvider.LoadCart` may be called more than once in the model. React runs the load effect only once, on mount.
- Floating-point prices and `toFixed(2)` display rounding. Prices are integer cents.
- Id comparison with `===` across JavaScript types (a string id against a number id). Ids are integers.
- A product title that is present but not a string, on which `toLowerCase` would throw.
- `toLowerCase`, which is the parameter `lower`. No property of case folding is assumed.
- `alert` and navigation calls. They are returned as `Validation.Effect` values instead of being performed.
- Rendering, styles, the theme context, network fetches and the home screen's loading and error state (screens/HomeScreen.jsx:31-59). These are interface wiring or foreign I/O.
