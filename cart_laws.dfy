/**
 * What the cart store's updaters promise (context/CartContext.jsx:34-83): where a line
 * moves or changes, that the invariants survive every update, and how `totalPrice`
 * follows each update.
 */
module CartLaws {
  import opened Wrappers
  import opened Products
  import opened CartLines

  // ---------------------------------------------------------------- helpers

  /** Cutting out element k > 0 commutes with taking off the first element. */
  lemma SpliceCons<T>(s: seq<T>, k: nat)
    requires 0 < k < |s|
    ensures s[..k] + s[k + 1..] == [s[0]] + (s[1..][..k - 1] + s[1..][k..])
  {
    assert s[1..][..k - 1] == s[1..k];
    assert s[1..][k..] == s[k + 1..];
    assert [s[0]] + s[1..k] == s[..k];
  }

  /** Replacing element k > 0 commutes with taking off the first element. */
  lemma ReplaceCons<T>(s: seq<T>, k: nat, x: T)
    requires 0 < k < |s|
    ensures s[k := x] == [s[0]] + s[1..][k - 1 := x]
  {
  }

  lemma ReplaceHead<T>(s: seq<T>, x: T)
    requires s != []
    ensures s[0 := x] == [x] + s[1..]
  {
  }

  /** An id that some line carries is carried by no other line. */
  lemma AbsentAfterUnique(cart: seq<Line>, k: nat)
    requires UniqueIds(cart) && k < |cart|
    ensures !HasId(cart[k + 1..], cart[k].product.id)
    ensures !HasId(cart[..k], cart[k].product.id)
  {
    var rest, front := cart[k + 1..], cart[..k];
    forall i | 0 <= i < |rest| ensures rest[i].product.id != cart[k].product.id {
      assert rest[i] == cart[k + 1 + i];
    }
    forall i | 0 <= i < |front| ensures front[i].product.id != cart[k].product.id {
      assert front[i] == cart[i];
    }
  }

  lemma UniqueTail(cart: seq<Line>)
    requires UniqueIds(cart) && cart != []
    ensures UniqueIds(cart[1..])
  {
    forall i, j | 0 <= i < j < |cart[1..]|
      ensures cart[1..][i].product.id != cart[1..][j].product.id
    {
      assert cart[1..][i] == cart[i + 1] && cart[1..][j] == cart[j + 1];
    }
  }

  /** `.filter(Boolean)` keeps exactly the lines that are not `null`. */
  lemma {:induction false} CompactMembers(steps: seq<Option<Line>>)
    ensures forall l :: l in Compact(steps) <==> Some(l) in steps
  {
    if steps != [] {
      CompactMembers(steps[1..]);
      assert steps == [steps[0]] + steps[1..];
    }
  }

  /** `updateQuantity` on a non-empty cart: the first line's outcome, then the rest. */
  lemma UpdateCons(cart: seq<Line>, id: int, dir: Direction)
    requires cart != []
    ensures UpdateLines(cart, id, dir) ==
              (match Step(cart[0], id, dir) case None => [] case Some(l) => [l])
              + UpdateLines(cart[1..], id, dir)
  {
    var steps := MapStep(cart, id, dir);
    assert steps[0] == Step(cart[0], id, dir);
    assert steps[1..] == MapStep(cart[1..], id, dir);
  }

  // ---------------------------------------------------------------- addToCart

  /** With unique ids, bumping the lines that carry `cart[k]`'s id changes line k alone. */
  lemma IncrementAt(cart: seq<Line>, k: nat)
    requires UniqueIds(cart) && k < |cart|
    ensures IncrementMatching(cart, cart[k].product.id)
            == cart[k := WithQuantity(cart[k], cart[k].quantity + 1)]
  {
    var r := IncrementMatching(cart, cart[k].product.id);
    forall i | 0 <= i < |cart| ensures r[i] == cart[k := WithQuantity(cart[k], cart[k].quantity + 1)][i] {
      if i != k {
        assert cart[i].product.id != cart[k].product.id;
      }
    }
  }

  /**
   * `addToCart(p)` when line k already has `p.id`: line k's quantity goes up by exactly 1,
   * it keeps its position, and every other line and the length stay as they were.
   */
  lemma AddMergesExisting(cart: seq<Line>, p: Product, k: nat)
    requires UniqueIds(cart) && k < |cart| && cart[k].product.id == p.id
    ensures AddToCart(cart, p) == cart[k := WithQuantity(cart[k], cart[k].quantity + 1)]
  {
    IncrementAt(cart, k);
  }

  /** `addToCart(p)` when no line has `p.id`: `{ ...p, quantity: 1 }` is appended at the end. */
  lemma AddAppendsNew(cart: seq<Line>, p: Product)
    requires forall i :: 0 <= i < |cart| ==> cart[i].product.id != p.id
    ensures AddToCart(cart, p) == cart + [Line(p, 1)]
  {
  }

  lemma AddPreservesValid(cart: seq<Line>, p: Product)
    requires Valid(cart)
    ensures Valid(AddToCart(cart, p))
  {
    if HasId(cart, p.id) {
      var k :| 0 <= k < |cart| && cart[k].product.id == p.id;
      AddMergesExisting(cart, p, k);
    }
  }

  // ---------------------------------------------------------------- removeFromCart

  /** `removeFromCart(id)` keeps exactly the lines whose id differs from `id`. */
  lemma {:induction false} RemoveMembers(cart: seq<Line>, id: int)
    ensures forall l :: l in RemoveFromCart(cart, id) <==> l in cart && l.product.id != id
  {
    if cart != [] {
      RemoveMembers(cart[1..], id);
      assert cart == [cart[0]] + cart[1..];
    }
  }

  lemma RemoveKeepsHead(cart: seq<Line>, id: int)
    requires cart != [] && cart[0].product.id != id
    ensures RemoveFromCart(cart, id) == [cart[0]] + RemoveFromCart(cart[1..], id)
  {
  }

  lemma RemoveHead(cart: seq<Line>)
    requires UniqueIds(cart) && cart != []
    ensures RemoveFromCart(cart, cart[0].product.id) == cart[..0] + cart[1..]
  {
    AbsentAfterUnique(cart, 0);
    assert RemoveFromCart(cart, cart[0].product.id) == RemoveFromCart(cart[1..], cart[0].product.id);
    assert cart[..0] + cart[1..] == cart[1..];
  }

  /** `removeFromCart(id)` drops exactly line k, the one carrying `id`, and keeps the rest in order. */
  lemma {:induction false} RemoveAt(cart: seq<Line>, k: nat)
    requires UniqueIds(cart) && k < |cart|
    ensures RemoveFromCart(cart, cart[k].product.id) == cart[..k] + cart[k + 1..]
  {
    if k == 0 {
      RemoveHead(cart);
    } else {
      var id := cart[k].product.id;
      var tail := cart[1..];
      UniqueTail(cart);
      assert cart[0].product.id != id;
      RemoveKeepsHead(cart, id);
      assert tail[k - 1] == cart[k];
      RemoveAt(tail, k - 1);
      SpliceCons(cart, k);
    }
  }

  lemma {:induction false} RemovePreservesValid(cart: seq<Line>, id: int)
    requires Valid(cart)
    ensures Valid(RemoveFromCart(cart, id))
  {
    if cart != [] {
      UniqueTail(cart);
      RemovePreservesValid(cart[1..], id);
      var rest := RemoveFromCart(cart[1..], id);
      RemoveMembers(cart[1..], id);
      if cart[0].product.id != id {
        var r := [cart[0]] + rest;
        forall j | 0 < j < |r| ensures r[0].product.id != r[j].product.id {
          assert r[j] in rest;
          var m :| 0 <= m < |cart[1..]| && cart[1..][m] == r[j];
          assert r[j] == cart[m + 1];
        }
      }
    }
  }

  // ---------------------------------------------------------------- updateQuantity

  lemma {:induction false} IncLinesIsIncrement(cart: seq<Line>, id: int)
    ensures UpdateLines(cart, id, Inc) == IncrementMatching(cart, id)
  {
    if cart != [] {
      UpdateCons(cart, id, Inc);
      IncLinesIsIncrement(cart[1..], id);
    }
  }

  /** `updateQuantity(id, "inc")` is `addToCart`'s bump: +1 on the matching lines, nothing else. */
  lemma UpdateIncIsIncrement(cart: seq<Line>, id: int)
    ensures UpdateQuantity(cart, id, "inc") == IncrementMatching(cart, id)
  {
    IncLinesIsIncrement(cart, id);
  }

  /** `updateQuantity(id, "inc")` on line k: its quantity goes up by 1 and it keeps its position. */
  lemma UpdateIncAt(cart: seq<Line>, k: nat)
    requires UniqueIds(cart) && k < |cart|
    ensures UpdateQuantity(cart, cart[k].product.id, "inc")
            == cart[k := WithQuantity(cart[k], cart[k].quantity + 1)]
  {
    UpdateIncIsIncrement(cart, cart[k].product.id);
    IncrementAt(cart, k);
  }

  lemma {:induction false} LinesNoOp(cart: seq<Line>, id: int, dir: Direction)
    requires !HasId(cart, id) || dir == Unknown
    ensures UpdateLines(cart, id, dir) == cart
  {
    if cart != [] {
      UpdateCons(cart, id, dir);
      LinesNoOp(cart[1..], id, dir);
    }
  }

  /** An absent id, or a `type` other than "inc" and "dec", leaves the cart unchanged. */
  lemma UpdateNoOp(cart: seq<Line>, id: int, kind: string)
    requires !HasId(cart, id) || (kind != "inc" && kind != "dec")
    ensures UpdateQuantity(cart, id, kind) == cart
  {
    LinesNoOp(cart, id, DirectionOf(kind));
  }

  /** A first line with another id passes through an update unchanged. */
  lemma UpdateKeepsHead(cart: seq<Line>, id: int, dir: Direction)
    requires cart != [] && cart[0].product.id != id
    ensures UpdateLines(cart, id, dir) == [cart[0]] + UpdateLines(cart[1..], id, dir)
  {
    UpdateCons(cart, id, dir);
  }

  /** A first line of quantity 1 is dropped by "dec" on its id; the rest stays. */
  lemma DecRemovesHead(cart: seq<Line>)
    requires UniqueIds(cart) && cart != [] && cart[0].quantity == 1
    ensures UpdateLines(cart, cart[0].product.id, Dec) == cart[..0] + cart[1..]
  {
    var id := cart[0].product.id;
    UpdateCons(cart, id, Dec);
    AbsentAfterUnique(cart, 0);
    LinesNoOp(cart[1..], id, Dec);
    assert cart[..0] + cart[1..] == cart[1..];
  }

  /** A first line of another quantity is lowered by 1 by "dec" on its id; the rest stays. */
  lemma DecLowersHead(cart: seq<Line>)
    requires UniqueIds(cart) && cart != [] && cart[0].quantity != 1
    ensures UpdateLines(cart, cart[0].product.id, Dec)
            == cart[0 := WithQuantity(cart[0], cart[0].quantity - 1)]
  {
    var id := cart[0].product.id;
    var l := WithQuantity(cart[0], cart[0].quantity - 1);
    UpdateCons(cart, id, Dec);
    assert Step(cart[0], id, Dec) == Some(l);
    AbsentAfterUnique(cart, 0);
    LinesNoOp(cart[1..], id, Dec);
    ReplaceHead(cart, l);
  }

  /** Line k has quantity 1: decrementing it removes it. */
  lemma {:induction false} DecRemovesAt(cart: seq<Line>, k: nat)
    requires UniqueIds(cart) && k < |cart| && cart[k].quantity == 1
    ensures UpdateLines(cart, cart[k].product.id, Dec) == cart[..k] + cart[k + 1..]
  {
    if k == 0 {
      DecRemovesHead(cart);
    } else {
      var id := cart[k].product.id;
      var tail := cart[1..];
      UniqueTail(cart);
      assert cart[0].product.id != id;
      UpdateKeepsHead(cart, id, Dec);
      assert tail[k - 1] == cart[k];
      DecRemovesAt(tail, k - 1);
      SpliceCons(cart, k);
    }
  }

  /** Line k has a quantity other than 1: decrementing it lowers it by 1 in place. */
  lemma {:induction false} DecLowersAt(cart: seq<Line>, k: nat)
    requires UniqueIds(cart) && k < |cart| && cart[k].quantity != 1
    ensures UpdateLines(cart, cart[k].product.id, Dec)
            == cart[k := WithQuantity(cart[k], cart[k].quantity - 1)]
  {
    if k == 0 {
      DecLowersHead(cart);
    } else {
      var id := cart[k].product.id;
      var tail := cart[1..];
      UniqueTail(cart);
      assert cart[0].product.id != id;
      UpdateKeepsHead(cart, id, Dec);
      assert tail[k - 1] == cart[k];
      DecLowersAt(tail, k - 1);
      ReplaceCons(cart, k, WithQuantity(cart[k], cart[k].quantity - 1));
    }
  }

  /**
   * `updateQuantity(id, "dec")` on line k: a quantity of 1 removes the line; otherwise
   * the quantity drops by 1 and the line keeps its position.
   */
  lemma UpdateDecAt(cart: seq<Line>, k: nat)
    requires UniqueIds(cart) && k < |cart|
    ensures UpdateQuantity(cart, cart[k].product.id, "dec")
            == if cart[k].quantity == 1 then cart[..k] + cart[k + 1..]
               else cart[k := WithQuantity(cart[k], cart[k].quantity - 1)]
  {
    if cart[k].quantity == 1 {
      DecRemovesAt(cart, k);
    } else {
      DecLowersAt(cart, k);
    }
  }

  /** Decrementing a line whose quantity is 1 is the same as removing it. */
  lemma DecOfOneIsRemove(cart: seq<Line>, k: nat)
    requires UniqueIds(cart) && k < |cart| && cart[k].quantity == 1
    ensures UpdateQuantity(cart, cart[k].product.id, "dec") == RemoveFromCart(cart, cart[k].product.id)
  {
    UpdateDecAt(cart, k);
    RemoveAt(cart, k);
  }

  /** An update never brings in an id the cart did not have. */
  lemma {:induction false} LinesKeepIds(cart: seq<Line>, id: int, dir: Direction)
    ensures forall l :: l in UpdateLines(cart, id, dir) ==> HasId(cart, l.product.id)
  {
    if cart != [] {
      UpdateCons(cart, id, dir);
      LinesKeepIds(cart[1..], id, dir);
      forall l | l in UpdateLines(cart[1..], id, dir) ensures HasId(cart, l.product.id) {
        var m :| 0 <= m < |cart[1..]| && cart[1..][m].product.id == l.product.id;
        assert cart[m + 1] == cart[1..][m];
      }
    }
  }

  lemma {:induction false} LinesPreserveValid(cart: seq<Line>, id: int, dir: Direction)
    requires Valid(cart)
    ensures Valid(UpdateLines(cart, id, dir))
  {
    if cart != [] {
      UpdateCons(cart, id, dir);
      UniqueTail(cart);
      AbsentAfterUnique(cart, 0);
      LinesPreserveValid(cart[1..], id, dir);
      LinesKeepIds(cart[1..], id, dir);
      var rest := UpdateLines(cart[1..], id, dir);
      match Step(cart[0], id, dir)
      case None =>
      case Some(l) =>
        var r := [l] + rest;
        assert l.product == cart[0].product && l.quantity >= 1;
        forall j | 0 < j < |r| ensures r[0].product.id != r[j].product.id {
          assert r[j] in rest;
        }
    }
  }

  lemma UpdatePreservesValid(cart: seq<Line>, id: int, kind: string)
    requires Valid(cart)
    ensures Valid(UpdateQuantity(cart, id, kind))
  {
    LinesPreserveValid(cart, id, DirectionOf(kind));
  }

  // ---------------------------------------------------------------- totalPrice

  lemma {:induction false} SumAppend(a: seq<Line>, b: seq<Line>)
    ensures Sum(a + b) == Sum(a) + Sum(b)
  {
    if a == [] {
      assert a + b == b;
    } else {
      assert (a + b)[1..] == a[1..] + b;
      SumAppend(a[1..], b);
    }
  }

  /** The total splits around line k. */
  lemma SumSplit(cart: seq<Line>, k: nat)
    requires k < |cart|
    ensures Sum(cart) == Sum(cart[..k]) + Subtotal(cart[k]) + Sum(cart[k + 1..])
  {
    var back := cart[k..];
    assert cart == cart[..k] + back;
    SumAppend(cart[..k], back);
    assert back[0] == cart[k] && back[1..] == cart[k + 1..];
  }

  /** Replacing line k changes the total by the difference of the two subtotals. */
  lemma SumReplace(cart: seq<Line>, k: nat, l: Line)
    requires k < |cart|
    ensures Sum(cart[k := l]) == Sum(cart) - Subtotal(cart[k]) + Subtotal(l)
  {
    var c := cart[k := l];
    SumSplit(cart, k);
    SumSplit(c, k);
    assert c[..k] == cart[..k] && c[k + 1..] == cart[k + 1..];
  }

  lemma SubtotalStep(item: Line, delta: int)
    ensures Subtotal(WithQuantity(item, item.quantity + delta)) == Subtotal(item) + delta * item.product.price
  {
  }

  /**
   * `addToCart(p)` on a product already in line k raises `totalPrice` by that line's price:
   * the existing line is bumped, so a changed `p.price` plays no part.
   */
  lemma TotalAfterAddExisting(cart: seq<Line>, p: Product, k: nat)
    requires UniqueIds(cart) && k < |cart| && cart[k].product.id == p.id
    ensures TotalPrice(AddToCart(cart, p)) == TotalPrice(cart) + cart[k].product.price
  {
    AddMergesExisting(cart, p, k);
    SumReplace(cart, k, WithQuantity(cart[k], cart[k].quantity + 1));
    SubtotalStep(cart[k], 1);
  }

  /** `addToCart(p)` on a new product raises `totalPrice` by `p.price`. */
  lemma TotalAfterAddNew(cart: seq<Line>, p: Product)
    requires !HasId(cart, p.id)
    ensures TotalPrice(AddToCart(cart, p)) == TotalPrice(cart) + p.price
  {
    SumAppend(cart, [Line(p, 1)]);
  }

  /** `removeFromCart` lowers `totalPrice` by the removed line's price × quantity. */
  lemma TotalAfterRemove(cart: seq<Line>, k: nat)
    requires UniqueIds(cart) && k < |cart|
    ensures TotalPrice(RemoveFromCart(cart, cart[k].product.id)) == TotalPrice(cart) - Subtotal(cart[k])
  {
    RemoveAt(cart, k);
    SumSplit(cart, k);
    SumAppend(cart[..k], cart[k + 1..]);
  }

  /** `updateQuantity(id, "inc")` raises `totalPrice` by that line's price. */
  lemma TotalAfterInc(cart: seq<Line>, k: nat)
    requires UniqueIds(cart) && k < |cart|
    ensures TotalPrice(UpdateQuantity(cart, cart[k].product.id, "inc")) == TotalPrice(cart) + cart[k].product.price
  {
    UpdateIncAt(cart, k);
    SumReplace(cart, k, WithQuantity(cart[k], cart[k].quantity + 1));
    SubtotalStep(cart[k], 1);
  }

  /** `updateQuantity(id, "dec")` lowers `totalPrice` by that line's price, whether or not the line goes. */
  lemma TotalAfterDec(cart: seq<Line>, k: nat)
    requires UniqueIds(cart) && k < |cart|
    ensures TotalPrice(UpdateQuantity(cart, cart[k].product.id, "dec")) == TotalPrice(cart) - cart[k].product.price
  {
    UpdateDecAt(cart, k);
    if cart[k].quantity == 1 {
      RemoveAt(cart, k);
      TotalAfterRemove(cart, k);
    } else {
      SumReplace(cart, k, WithQuantity(cart[k], cart[k].quantity - 1));
      SubtotalStep(cart[k], -1);
    }
  }

  // ---------------------------------------------------------------- worked cases

  /** Adding the same product (price 10.00) twice gives one line of quantity 2; total 20.00. */
  lemma AddTwiceMerges(p: Product)
    requires p.price == 1000
    ensures AddToCart(AddToCart([], p), p) == [Line(p, 2)]
    ensures TotalPrice(AddToCart(AddToCart([], p), p)) == 2000
  {
    var once := AddToCart([], p);
    assert once == [Line(p, 1)];
    AddMergesExisting(once, p, 0);
    assert once[0 := WithQuantity(once[0], 2)] == [Line(p, 2)];
    assert Sum([Line(p, 2)]) == Subtotal(Line(p, 2)) == 2000;
  }

  /**
   * Add a product of price 10.00 and one of price 5.00, then decrement the first twice:
   * the first decrement removes its line (quantity 1), the second finds nothing to do.
   */
  lemma DecrementToDelete(p1: Product, p2: Product)
    requires p1.id != p2.id && p2.price == 500
    ensures var c := AddToCart(AddToCart([], p1), p2);
            UpdateQuantity(UpdateQuantity(c, p1.id, "dec"), p1.id, "dec") == [Line(p2, 1)]
    ensures var c := AddToCart(AddToCart([], p1), p2);
            TotalPrice(UpdateQuantity(UpdateQuantity(c, p1.id, "dec"), p1.id, "dec")) == 500
  {
    AddAppendsNew([], p1);
    AddAppendsNew([Line(p1, 1)], p2);
    var c := [Line(p1, 1), Line(p2, 1)];
    assert AddToCart(AddToCart([], p1), p2) == c;
    assert UniqueIds(c);
    UpdateDecAt(c, 0);
    assert c[..0] + c[1..] == [Line(p2, 1)];
    var once := [Line(p2, 1)];
    assert !HasId(once, p1.id);
    UpdateNoOp(once, p1.id, "dec");
    assert Sum(once) == 500;
  }
}
