/**
 * The updaters of the cart store (context/CartContext.jsx). Each update passes a pure
 * function `prevCart -> newCart` to `setCart`; those functions are modelled here on
 * sequences of lines, together with the derived `totalPrice` and the two invariants
 * every update keeps: ids are unique and quantities are at least 1.
 */
module CartLines {
  import opened Wrappers
  import opened Products

  /** A cart line: the product record spread into a new object with a `quantity` field. */
  datatype Line = Line(product: Product, quantity: int)

  /** `{ ...item, quantity: item.quantity + delta }` */
  function WithQuantity(item: Line, quantity: int): Line {
    item.(quantity := quantity)
  }

  // ---------------------------------------------------------------- invariants

  /** No two lines carry the same product id. */
  predicate UniqueIds(cart: seq<Line>) {
    forall i, j :: 0 <= i < j < |cart| ==> cart[i].product.id != cart[j].product.id
  }

  /** Every line has a quantity of at least 1. */
  predicate PositiveQuantities(cart: seq<Line>) {
    forall i :: 0 <= i < |cart| ==> cart[i].quantity >= 1
  }

  predicate Valid(cart: seq<Line>) {
    UniqueIds(cart) && PositiveQuantities(cart)
  }

  // ---------------------------------------------------------------- queries

  /** `prevCart.find(item => item.id === id)` finds a line. */
  function HasId(cart: seq<Line>, id: int): (b: bool)
    ensures b <==> exists i :: 0 <= i < |cart| && cart[i].product.id == id
  {
    if cart == [] then false
    else if cart[0].product.id == id then true
    else
      var b := HasId(cart[1..], id);
      assert b ==> exists i :: 0 <= i < |cart[1..]| && cart[1..][i].product.id == id;
      assert forall i :: 1 <= i < |cart| ==> cart[i] == cart[1..][i - 1];
      b
  }

  // ---------------------------------------------------------------- addToCart

  /** `prevCart.map(item => item.id === id ? { ...item, quantity: item.quantity + 1 } : item)` */
  function IncrementMatching(cart: seq<Line>, id: int): (r: seq<Line>)
    ensures |r| == |cart|
    ensures forall i :: 0 <= i < |cart| && cart[i].product.id != id ==> r[i] == cart[i]
    ensures forall i :: 0 <= i < |cart| && cart[i].product.id == id ==>
              r[i].product == cart[i].product && r[i].quantity == cart[i].quantity + 1
  {
    if cart == [] then []
    else
      var head := if cart[0].product.id == id then WithQuantity(cart[0], cart[0].quantity + 1) else cart[0];
      [head] + IncrementMatching(cart[1..], id)
  }

  /**
   * `addToCart(product)`: a repeat product bumps the quantity of its line,
   * a new product is appended as `{ ...product, quantity: 1 }`.
   */
  function AddToCart(cart: seq<Line>, p: Product): (r: seq<Line>)
    ensures HasId(r, p.id)
    ensures |r| == if HasId(cart, p.id) then |cart| else |cart| + 1
  {
    if HasId(cart, p.id) then IncrementMatching(cart, p.id)
    else
      var r := cart + [Line(p, 1)];
      assert r[|cart|].product.id == p.id;
      r
  }

  // ---------------------------------------------------------------- removeFromCart

  /** `prevCart.filter(item => item.id !== id)` */
  function RemoveFromCart(cart: seq<Line>, id: int): (r: seq<Line>)
    ensures |r| <= |cart|
    ensures !HasId(cart, id) ==> r == cart
  {
    if cart == [] then []
    else if cart[0].product.id != id then [cart[0]] + RemoveFromCart(cart[1..], id)
    else RemoveFromCart(cart[1..], id)
  }

  // ---------------------------------------------------------------- updateQuantity

  /** The `type` argument of `updateQuantity`: "inc", "dec", or anything else. */
  datatype Direction = Inc | Dec | Unknown

  function DirectionOf(kind: string): Direction {
    if kind == "inc" then Inc else if kind == "dec" then Dec else Unknown
  }

  /**
   * The callback `updateQuantity` maps over the lines. `None` is the `null` it returns
   * to mark a line whose quantity would drop to 0; an unknown `type` leaves the line
   * as it is.
   */
  function Step(item: Line, id: int, dir: Direction): (r: Option<Line>)
    ensures r.None? <==> item.product.id == id && dir == Dec && item.quantity == 1
    ensures item.product.id != id || dir == Unknown ==> r == Some(item)
    ensures r.Some? ==> r.value.product == item.product
    ensures r.Some? && item.quantity >= 1 ==> r.value.quantity >= 1
  {
    if item.product.id != id then Some(item)
    else match dir
      case Inc => Some(WithQuantity(item, item.quantity + 1))
      case Dec => if item.quantity == 1 then None else Some(WithQuantity(item, item.quantity - 1))
      case Unknown => Some(item)
  }

  /** `prevCart.map(callback)` */
  function MapStep(cart: seq<Line>, id: int, dir: Direction): (r: seq<Option<Line>>)
    ensures |r| == |cart|
    ensures forall i :: 0 <= i < |cart| ==> r[i] == Step(cart[i], id, dir)
  {
    if cart == [] then [] else [Step(cart[0], id, dir)] + MapStep(cart[1..], id, dir)
  }

  /** `.filter(Boolean)`: drops the `null` markers and keeps the rest in order. */
  function Compact(steps: seq<Option<Line>>): (r: seq<Line>)
    ensures |r| <= |steps|
    ensures |r| == |steps| <==> forall i :: 0 <= i < |steps| ==> steps[i].Some?
  {
    if steps == [] then []
    else
      var rest := Compact(steps[1..]);
      assert forall i :: 1 <= i < |steps| ==> steps[i] == steps[1..][i - 1];
      match steps[0]
      case None => rest
      case Some(l) => [l] + rest
  }

  /** The map-then-filter of `updateQuantity` for a decoded direction. */
  function UpdateLines(cart: seq<Line>, id: int, dir: Direction): seq<Line> {
    Compact(MapStep(cart, id, dir))
  }

  /**
   * `updateQuantity(id, type)`: the cart never grows, and it shrinks exactly when `type`
   * is "dec" and a line with `id` has quantity 1.
   */
  function UpdateQuantity(cart: seq<Line>, id: int, kind: string): (r: seq<Line>)
    ensures |r| <= |cart|
    ensures |r| < |cart| <==>
              kind == "dec" && exists i :: 0 <= i < |cart| && cart[i].product.id == id && cart[i].quantity == 1
  {
    UpdateLines(cart, id, DirectionOf(kind))
  }

  // ---------------------------------------------------------------- clearCart

  /** `clearCart()` sets the cart to `[]`. */
  function ClearCart(): (r: seq<Line>)
    ensures Valid(r) && TotalPrice(r) == 0
  {
    []
  }

  // ---------------------------------------------------------------- totalPrice

  function Subtotal(item: Line): int {
    item.product.price * item.quantity
  }

  /**
   * `cart.reduce((total, item) => total + item.price * item.quantity, acc)`: a left fold,
   * which comes to the accumulator plus the right-recursive `Sum`.
   */
  function Reduce(cart: seq<Line>, acc: int): (r: int)
    ensures r == acc + Sum(cart)
  {
    if cart == [] then acc else Reduce(cart[1..], acc + Subtotal(cart[0]))
  }

  /** Reference definition of the total: the sum of price × quantity over the lines. */
  function Sum(cart: seq<Line>): int {
    if cart == [] then 0 else Subtotal(cart[0]) + Sum(cart[1..])
  }

  /** `totalPrice`, the reduce started at 0, equals the sum over the lines. */
  function TotalPrice(cart: seq<Line>): (total: int)
    ensures total == Sum(cart)
  {
    Reduce(cart, 0)
  }
}
