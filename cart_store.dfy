/**
 * CartManager (script.js, lines 2-74): the page's single cart instance, its
 * persisted record under the storage key 'etoilecanine_cart', and the value
 * shown by every '.cart-count' badge. Rendering and notifications are not part
 * of this model.
 */
module CartStore {
  import opened Wrappers
  import opened LineItems
  import opened Cart

  class CartManager {
    /** The in-memory list of line items, in display order. */
    var cart: seq<LineItem>
    /** The record under the storage key; `None` when there is none (or it is the empty string). */
    var stored: Option<seq<LineItem>>
    /** The number every count badge shows. */
    var badge: int

    /** Storage and badges agree with the in-memory cart: the state after every completed mutation. */
    ghost predicate Synced()
      reads this
    {
      stored == Some(cart) && badge == Count(cart)
    }

    /** `loadCart`: the stored list, or the empty list when nothing is stored. */
    function LoadCart(): (c: seq<LineItem>)
      reads this
      ensures stored.Some? ==> c == stored.value
      ensures stored.None? ==> c == []
    {
      match stored
      case Some(s) => s
      case None => []
    }

    /** `getTotal`. */
    function GetTotal(): (t: int)
      reads this
      ensures cart == [] ==> t == 0
      ensures AllPositive(cart) ==> t >= 0
    {
      Total(cart)
    }

    /** Page load: the cart is read from `record` and the badges are refreshed; storage is not written. */
    constructor (record: Option<seq<LineItem>>)
      ensures stored == record
      ensures record.Some? ==> cart == record.value
      ensures record.None? ==> cart == []
      ensures badge == Count(cart)
    {
      stored := record;
      cart := [];
      badge := 0;
      new;
      cart := LoadCart();
      UpdateCartCount();
    }

    /** The count reduction of `updateCartCount`, written to every badge. */
    method UpdateCartCount()
      modifies this`badge
      ensures badge == Count(cart)
    {
      badge := Count(cart);
    }

    /** `saveCart`: overwrite the stored record with the whole cart, then refresh the badges. */
    method SaveCart()
      modifies this
      ensures cart == old(cart)
      ensures Synced() && LoadCart() == cart
    {
      stored := Some(cart);
      UpdateCartCount();
    }

    /** `addToCart`. */
    method AddToCart(product: Product)
      modifies this
      ensures cart == Added(old(cart), product)
      ensures Synced() && LoadCart() == cart
      ensures Count(cart) == Count(old(cart)) + ResolvedQuantity(product)
      ensures UniqueKeys(old(cart)) ==> UniqueKeys(cart)
      ensures AllPositive(old(cart)) ==> AllPositive(cart)
      ensures Find(old(cart), ProductKey(product)).None? ==> cart == old(cart) + [Resolve(product)]
      ensures Find(old(cart), ProductKey(product)).Some? ==> |cart| == |old(cart)|
    {
      ghost var before := cart;
      var quantity := ResolvedQuantity(product);
      match Find(cart, ProductKey(product)) {
        case Some(i) =>
          cart := cart[i := cart[i].(quantity := cart[i].quantity + quantity)];
        case None =>
          cart := cart + [Resolve(product)];
      }
      assert cart == Added(before, product);
      SaveCart();
      AddCount(before, product);
      if AllPositive(before) {
        AddPreservesAllPositive(before, product);
      }
      if UniqueKeys(before) {
        AddPreservesUniqueKeys(before, product);
      }
    }

    /** `removeFromCart`. */
    method RemoveFromCart(index: nat)
      requires index < |cart|
      modifies this
      ensures cart == Removed(old(cart), index)
      ensures Synced() && LoadCart() == cart
      ensures Count(cart) == Count(old(cart)) - old(cart)[index].quantity
      ensures Total(cart) == Total(old(cart)) - Subtotal(old(cart)[index])
      ensures UniqueKeys(old(cart)) ==> UniqueKeys(cart)
      ensures AllPositive(old(cart)) ==> AllPositive(cart)
    {
      ghost var before := cart;
      cart := cart[..index] + cart[index + 1..];
      SaveCart();
      RemoveSums(before, index);
      RemovePreservesInvariants(before, index);
    }

    /** `updateQuantity`: a quantity of zero or less removes the entry. */
    method UpdateQuantity(index: nat, quantity: int)
      requires index < |cart|
      modifies this
      ensures cart == Updated(old(cart), index, quantity)
      ensures quantity <= 0 ==> cart == Removed(old(cart), index)
      ensures Synced() && LoadCart() == cart
      ensures UniqueKeys(old(cart)) ==> UniqueKeys(cart)
      ensures AllPositive(old(cart)) ==> AllPositive(cart)
    {
      ghost var before := cart;
      UpdatePreservesInvariants(before, index, quantity);
      if quantity <= 0 {
        RemoveFromCart(index);
        return;
      }
      cart := cart[index := cart[index].(quantity := quantity)];
      SaveCart();
    }
  }

  /**
   * A reload of the page (script.js, lines 264-265): a new CartManager over the
   * same storage. In every stable state (right after page load or after any
   * completed mutation) it reproduces the cart and the badge exactly.
   */
  method Reload(previous: CartManager) returns (next: CartManager)
    ensures fresh(next)
    ensures next.stored == previous.stored
    // The after-mutation case, kept as a corollary of the clause below.
    ensures previous.Synced() ==> next.cart == previous.cart && next.badge == previous.badge
    ensures previous.LoadCart() == previous.cart && previous.badge == Count(previous.cart) ==>
      next.cart == previous.cart && next.badge == previous.badge
  {
    next := new CartManager(previous.stored);
  }

  /**
   * A session on empty storage: a reload at startup, `addToCart({})` twice, a
   * second reload, then `updateQuantity(0, 0)`.
   */
  method DefaultSession()
  {
    var manager := new CartManager(None);
    var startup := Reload(manager);
    assert startup.cart == [] && startup.GetTotal() == 0 && startup.badge == 0;
    assert startup.stored == None;
    manager.AddToCart(NoFields);
    ScenarioAddDefaultToEmpty();
    assert manager.cart == [DefaultItem] && manager.GetTotal() == 29 && manager.badge == 1;
    assert manager.stored == Some(manager.cart);
    manager.AddToCart(NoFields);
    ScenarioAddDefaultTwice();
    assert [NoFields, NoFields][1..] == [NoFields] && [NoFields][1..] == [];
    assert AddedAll([], [NoFields, NoFields]) == AddedAll([DefaultItem], [NoFields]);
    assert AddedAll([DefaultItem], [NoFields]) == AddedAll(Added([DefaultItem], NoFields), []);
    assert manager.cart == AddedAll([], [NoFields, NoFields]);
    assert |manager.cart| == 1 && manager.cart[0].quantity == 2 && manager.GetTotal() == 58;
    assert manager.badge == 2 && manager.stored == Some(manager.cart);
    var reloaded := Reload(manager);
    assert reloaded.cart == manager.cart && reloaded.GetTotal() == 58 && reloaded.badge == 2;
    assert reloaded.stored == Some(reloaded.cart);
    reloaded.UpdateQuantity(0, 0);
    assert reloaded.cart == [] && reloaded.GetTotal() == 0 && reloaded.badge == 0;
    assert reloaded.stored == Some([]);
  }
}
