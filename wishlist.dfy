/**
 * wishlist/views.py over wishlist/models.py: one wishlist per user and its items,
 * unique per (wishlist, product). Adding is get-or-create, removing is restricted
 * to the requesting user's own items, and clearing needs a POST.
 */
module Wishlists {
  import opened Wrappers
  import opened Ids
  import opened Catalog

  /** A WishlistItem row; its wishlist is identified by the owning user (one-to-one). */
  datatype WishItem = WishItem(owner: UserId, product: ProductId)

  type Items = map<ItemId, WishItem>

  /** The ids of a user's items. */
  function ItemsOf(items: Items, user: UserId): set<ItemId> {
    set i | i in items && items[i].owner == user
  }

  /** `wishlist.item_count`, i.e. `self.items.count()`. */
  function ItemCount(items: Items, user: UserId): nat {
    |ItemsOf(items, user)|
  }

  /** `unique_together = ('wishlist', 'product')`. */
  predicate Unique(items: Items) {
    forall i, j :: i in items && j in items && i != j ==> items[i] != items[j]
  }

  /** The products on a user's wishlist. */
  function ProductsOf(items: Items, user: UserId): set<ProductId> {
    set i | i in items && items[i].owner == user :: items[i].product
  }

  /** `WishlistItem.objects.get_or_create(wishlist, product)`: a new row only when none exists. */
  function AddItem(items: Items, user: UserId, pid: ProductId, id: ItemId): Items {
    if WishItem(user, pid) in items.Values then items else items[id := WishItem(user, pid)]
  }

  /** A product is on the user's list exactly when its row exists. */
  lemma ListedIffRow(items: Items, user: UserId, pid: ProductId)
    ensures pid in ProductsOf(items, user) <==> WishItem(user, pid) in items.Values
  {
    if pid in ProductsOf(items, user) {
      var i :| i in items && items[i].owner == user && items[i].product == pid;
      assert items[i] == WishItem(user, pid);
    }
    if WishItem(user, pid) in items.Values {
      var i :| i in items && items[i] == WishItem(user, pid);
      assert items[i].product in ProductsOf(items, user);
    }
  }

  lemma AddNewRow(items: Items, user: UserId, pid: ProductId, id: ItemId)
    requires Unique(items) && id !in items && WishItem(user, pid) !in items.Values
    ensures var r := items[id := WishItem(user, pid)];
      && Unique(r)
      && ItemsOf(r, user) == ItemsOf(items, user) + {id}
      && (forall u :: u != user ==> ItemsOf(r, u) == ItemsOf(items, u))
  {
    var r := items[id := WishItem(user, pid)];
    assert ItemsOf(r, user) == ItemsOf(items, user) + {id};
  }

  lemma AddNewProduct(items: Items, user: UserId, pid: ProductId, id: ItemId)
    requires id !in items
    ensures ProductsOf(items[id := WishItem(user, pid)], user) == ProductsOf(items, user) + {pid}
  {
    var r := items[id := WishItem(user, pid)];
    forall q | q in ProductsOf(r, user)
      ensures q in ProductsOf(items, user) + {pid}
    {
      var i :| i in r && r[i].owner == user && r[i].product == q;
      if i != id {
        assert items[i].product in ProductsOf(items, user);
      }
    }
    forall q | q in ProductsOf(items, user)
      ensures q in ProductsOf(r, user)
    {
      var i :| i in items && items[i].owner == user && items[i].product == q;
      assert r[i] == items[i];
    }
    assert r[id].product == pid && r[id].owner == user;
  }

  /**
   * Adding puts the product on the user's list, creates a row only if it was not
   * there, keeps rows unique, and adds one to the count exactly when it creates.
   */
  lemma AddItemCount(items: Items, user: UserId, pid: ProductId, id: ItemId)
    requires Unique(items) && id !in items
    ensures var r := AddItem(items, user, pid, id);
      && Unique(r)
      && ProductsOf(r, user) == ProductsOf(items, user) + {pid}
      && (forall u :: u != user ==> ItemsOf(r, u) == ItemsOf(items, u))
      && ItemCount(r, user) == ItemCount(items, user) + (if pid in ProductsOf(items, user) then 0 else 1)
  {
    ListedIffRow(items, user, pid);
    if WishItem(user, pid) !in items.Values {
      AddNewRow(items, user, pid, id);
      AddNewProduct(items, user, pid, id);
    }
  }

  /** Adding the same product twice is adding it once. */
  lemma AddItemIdempotent(items: Items, user: UserId, pid: ProductId, id: ItemId, id2: ItemId)
    requires id !in items
    ensures AddItem(AddItem(items, user, pid, id), user, pid, id2) == AddItem(items, user, pid, id)
  {
    var r := AddItem(items, user, pid, id);
    assert WishItem(user, pid) in r.Values by {
      if WishItem(user, pid) !in items.Values {
        assert r[id] == WishItem(user, pid);
      }
    }
  }

  /** `item.delete()` after the owner check: the row goes and no other row changes. */
  lemma RemoveItemCount(items: Items, user: UserId, id: ItemId)
    requires id in items && items[id].owner == user
    ensures ItemCount(items - {id}, user) == ItemCount(items, user) - 1
    ensures forall u :: u != user ==> ItemsOf(items - {id}, u) == ItemsOf(items, u)
  {
    assert ItemsOf(items - {id}, user) == ItemsOf(items, user) - {id};
  }

  /** `wishlist.items.all().delete()`: the user's rows go, every other row stays. */
  function ClearedItems(items: Items, user: UserId): (r: Items)
    ensures ItemCount(r, user) == 0 && ProductsOf(r, user) == {}
    ensures forall i :: i in items && items[i].owner != user ==> i in r && r[i] == items[i]
    ensures forall i :: i in r ==> i in items
  {
    var r := map i | i in items && items[i].owner != user :: items[i];
    assert ItemsOf(r, user) == {};
    r
  }

  datatype AddOutcome = WishNotFound | WishAdded(created: bool, itemCount: nat)
  datatype RemoveOutcome = WishItemNotFound | WishRemoved(itemCount: nat)

  /** The Wishlist and WishlistItem tables. */
  class WishlistDb {
    /** The users that have a Wishlist row. */
    var wishlists: set<UserId>
    var items: Items
    /** The next autoincrement id of WishlistItem. */
    var nextItemId: ItemId

    ghost predicate Valid()
      reads this
    {
      Unique(items)
      && (forall i :: i in items ==> i < nextItemId && items[i].owner in wishlists)
    }

    constructor ()
      ensures Valid() && wishlists == {} && items == map[] && nextItemId == 0
    {
      wishlists, items, nextItemId := {}, map[], 0;
    }

    /**
     * `add_to_wishlist`: only an active product (404 otherwise, before the wishlist
     * is created); the reported count is the user's count afterwards.
     */
    method Add(products: map<ProductId, Product>, user: UserId, pid: ProductId) returns (out: AddOutcome)
      requires Valid()
      modifies this
      ensures Valid()
      ensures out == WishNotFound <==> !IsLive(products, pid)
      ensures out == WishNotFound ==> wishlists == old(wishlists) && items == old(items) && nextItemId == old(nextItemId)
      ensures out.WishAdded? ==>
        && wishlists == old(wishlists) + {user}
        && items == AddItem(old(items), user, pid, old(nextItemId))
        && (out.created <==> pid !in ProductsOf(old(items), user))
        && out.itemCount == ItemCount(items, user)
    {
      if !IsLive(products, pid) {
        return WishNotFound;
      }
      wishlists := wishlists + {user};
      AddItemCount(items, user, pid, nextItemId);
      ListedIffRow(items, user, pid);
      var created := WishItem(user, pid) !in items.Values;
      items := AddItem(items, user, pid, nextItemId);
      if created {
        nextItemId := nextItemId + 1;
      }
      out := WishAdded(created, ItemCount(items, user));
    }

    /** `remove_from_wishlist`: 404 unless the item is on the requesting user's own wishlist. */
    method Remove(user: UserId, id: ItemId) returns (out: RemoveOutcome)
      requires Valid()
      modifies this
      ensures Valid() && wishlists == old(wishlists) && nextItemId == old(nextItemId)
      ensures out == WishItemNotFound <==> !(id in old(items) && old(items)[id].owner == user)
      ensures items == if out == WishItemNotFound then old(items) else old(items) - {id}
      ensures out.WishRemoved? ==> out.itemCount == ItemCount(old(items), user) - 1
    {
      if !(id in items && items[id].owner == user) {
        return WishItemNotFound;
      }
      RemoveItemCount(items, user, id);
      items := items - {id};
      out := WishRemoved(ItemCount(items, user));
    }

    /**
     * `wishlist_view`: the user's wishlist is fetched or created, and its items are shown;
     * after it, the user has a wishlist that `Clear` empties instead of a 404.
     */
    method View(user: UserId) returns (shown: set<ItemId>)
      requires Valid()
      modifies this
      ensures Valid() && items == old(items) && nextItemId == old(nextItemId)
      ensures wishlists == old(wishlists) + {user}
      ensures shown == ItemsOf(items, user)
    {
      wishlists := wishlists + {user};
      shown := ItemsOf(items, user);
    }

    /** `clear_wishlist`: a POST by a user with a wishlist deletes that wishlist's items. */
    method Clear(user: UserId, isPost: bool) returns (cleared: bool)
      requires Valid()
      modifies this
      ensures Valid() && wishlists == old(wishlists) && nextItemId == old(nextItemId)
      ensures cleared <==> isPost && user in old(wishlists)
      ensures items == if cleared then ClearedItems(old(items), user) else old(items)
    {
      cleared := isPost && user in wishlists;
      if cleared {
        items := ClearedItems(items, user);
      }
    }
  }
}
