/**
 * The cart provider of context/CartContext.jsx as an object: the state `cart` and
 * `loading`, the one-time load from storage, and the write-through effect that copies
 * `cart` to storage only once `loading` is false. The storage key "cart" is an abstract
 * cell holding a cart value; serialisation and the asynchrony of reads and writes are
 * not modelled.
 */
module CartStore {
  import opened Products
  import CartLines
  import CartLaws

  type Line = CartLines.Line

  /** What the storage key "cart" yields: nothing (or an empty string), a saved cart, or text that does not parse. */
  datatype Record = Missing | Saved(cart: seq<Line>) | Unreadable

  /** A record that, once loaded, gives a cart with unique ids and positive quantities. */
  predicate RecordValid(r: Record) {
    r.Saved? ==> CartLines.Valid(r.cart)
  }

  /** The storage cell behind the key "cart"; it outlives any one provider. */
  class CartStorage {
    var record: Record

    constructor (initial: Record)
      ensures record == initial
    {
      record := initial;
    }
  }

  class CartProvider {
    var cart: seq<Line>
    var loading: bool
    const storage: CartStorage

    /** The cart keeps its invariants and storage holds nothing that would break them. */
    predicate Consistent()
      reads this, storage
    {
      CartLines.Valid(cart) && RecordValid(storage.record)
    }

    /** `totalPrice`, recomputed from the current lines on every render. */
    function TotalPrice(): (total: int)
      reads this
      ensures total == CartLines.Sum(cart)
    {
      CartLines.TotalPrice(cart)
    }

    /**
     * Mounting the provider: `cart` starts as `[]` and `loading` as true. The write effect
     * also runs on mount, but finds `loading` set and writes nothing.
     */
    constructor (storage: CartStorage)
      ensures this.storage == storage
      ensures cart == [] && loading
      ensures unchanged(storage)
      ensures RecordValid(storage.record) ==> Consistent()
    {
      this.storage := storage;
      cart := [];
      loading := true;
    }

    /** The effect on `[cart, loading]`: while `loading` is true it writes nothing. */
    method WriteThrough()
      modifies storage
      ensures storage.record == if loading then old(storage.record) else Saved(cart)
    {
      if !loading {
        storage.record := Saved(cart);
      }
    }

    /**
     * The load effect. A saved cart replaces the current one, even lines added while
     * loading; a missing or unreadable record leaves the cart as it is. Either way
     * `loading` becomes false, and the write effect then writes the cart back.
     */
    method LoadCart()
      modifies this, storage
      ensures !loading
      ensures cart == if old(storage.record).Saved? then old(storage.record).cart else old(cart)
      ensures storage.record == Saved(cart)
      ensures old(Consistent()) ==> Consistent()
    {
      match storage.record {
        case Saved(saved) => cart := saved;
        case Missing =>
        case Unreadable =>
      }
      loading := false;
      WriteThrough();
    }

    /** `addToCart(product)`, then the write effect. */
    method AddToCart(p: Product)
      modifies this, storage
      ensures cart == CartLines.AddToCart(old(cart), p) && loading == old(loading)
      ensures storage.record == if loading then old(storage.record) else Saved(cart)
      ensures old(Consistent()) ==> Consistent()
    {
      if CartLines.Valid(cart) {
        CartLaws.AddPreservesValid(cart, p);
      }
      cart := CartLines.AddToCart(cart, p);
      WriteThrough();
    }

    /** `removeFromCart(id)`, then the write effect. */
    method RemoveFromCart(id: int)
      modifies this, storage
      ensures cart == CartLines.RemoveFromCart(old(cart), id) && loading == old(loading)
      ensures storage.record == if loading then old(storage.record) else Saved(cart)
      ensures old(Consistent()) ==> Consistent()
    {
      if CartLines.Valid(cart) {
        CartLaws.RemovePreservesValid(cart, id);
      }
      cart := CartLines.RemoveFromCart(cart, id);
      WriteThrough();
    }

    /** `updateQuantity(id, type)`, then the write effect. */
    method UpdateQuantity(id: int, kind: string)
      modifies this, storage
      ensures cart == CartLines.UpdateQuantity(old(cart), id, kind) && loading == old(loading)
      ensures storage.record == if loading then old(storage.record) else Saved(cart)
      ensures old(Consistent()) ==> Consistent()
    {
      if CartLines.Valid(cart) {
        CartLaws.UpdatePreservesValid(cart, id, kind);
      }
      cart := CartLines.UpdateQuantity(cart, id, kind);
      WriteThrough();
    }

    /** `clearCart()`, then the write effect. */
    method ClearCart()
      modifies this, storage
      ensures cart == [] && loading == old(loading) && TotalPrice() == 0
      ensures storage.record == if loading then old(storage.record) else Saved([])
      ensures old(Consistent()) ==> Consistent()
    {
      cart := CartLines.ClearCart();
      WriteThrough();
    }
  }

  /**
   * Two sessions over one storage cell: whatever the first session last wrote is what the
   * second one loads, so the cart survives a restart once loading has finished.
   */
  method RestartRestoresCart(storage: CartStorage, p: Product, q: Product)
    returns (before: seq<Line>, after: seq<Line>)
    modifies storage
    ensures after == before
  {
    var first := new CartProvider(storage);
    first.LoadCart();
    first.AddToCart(p);
    first.AddToCart(q);
    first.UpdateQuantity(p.id, "dec");
    before := first.cart;
    var second := new CartProvider(storage);
    second.LoadCart();
    after := second.cart;
  }

  /**
   * An add made before the load finishes is lost when storage holds a saved cart:
   * the load replaces the cart, and nothing was written while loading.
   */
  method AddDuringLoad(storage: CartStorage, p: Product) returns (final: seq<Line>)
    requires storage.record == Saved([])
    modifies storage
    ensures final == [] && storage.record == Saved([])
  {
    var provider := new CartProvider(storage);
    provider.AddToCart(p);
    assert storage.record == Saved([]);
    provider.LoadCart();
    final := provider.cart;
  }
}
