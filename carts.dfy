/**
 * The session cart, `request.session['cart']`: a dictionary from product id to a
 * line, iterated in insertion order. Two views write incompatible line shapes:
 * store/views.py stores a bare quantity, store/bootstrap_views.py a dictionary
 * `{qty, price, name}`; orders/views.py reads both. A dictionary line may lack keys,
 * so each of its fields is optional.
 */
module Carts {
  import opened Wrappers
  import opened Ids

  datatype CartLine =
    | Quantity(count: int)
    | Snapshot(qty: Option<int>, price: Option<real>, name: Option<string>, sellerId: Option<UserId>)

  /** The dictionary as its items in insertion order. */
  type Cart = seq<(ProductId, CartLine)>

  function KeysOf(c: Cart): set<ProductId> {
    if c == [] then {} else {c[0].0} + KeysOf(c[1..])
  }

  /** No key occurs twice, as in a dictionary. */
  predicate Keyed(c: Cart) {
    c == [] || (c[0].0 !in KeysOf(c[1..]) && Keyed(c[1..]))
  }

  lemma {:induction false} KeysOfAt(c: Cart, i: nat)
    requires i < |c|
    ensures c[i].0 in KeysOf(c)
  {
    if i > 0 {
      KeysOfAt(c[1..], i - 1);
    }
  }

  /** `cart.get(k)` */
  function Lookup(c: Cart, k: ProductId): (r: Option<CartLine>)
    ensures r.Some? <==> k in KeysOf(c)
  {
    if c == [] then None else if c[0].0 == k then Some(c[0].1) else Lookup(c[1..], k)
  }

  /** In a keyed cart the item at position i is what its key looks up. */
  lemma {:induction false} LookupAt(c: Cart, i: nat)
    requires Keyed(c) && i < |c|
    ensures Lookup(c, c[i].0) == Some(c[i].1)
  {
    if i > 0 {
      KeysOfAt(c[1..], i - 1);
      LookupAt(c[1..], i - 1);
    }
  }

  /** `cart[k] = line`: replaces the value in place, or appends a new key at the end. */
  function Put(c: Cart, k: ProductId, line: CartLine): (r: Cart)
    ensures Lookup(r, k) == Some(line)
    ensures forall j :: j != k ==> Lookup(r, j) == Lookup(c, j)
    ensures KeysOf(r) == KeysOf(c) + {k}
    ensures Keyed(c) ==> Keyed(r)
    ensures |r| == if k in KeysOf(c) then |c| else |c| + 1
  {
    if c == [] then [(k, line)]
    else if c[0].0 == k then [(k, line)] + c[1..]
    else
      var rest := Put(c[1..], k, line);
      assert ([c[0]] + rest)[1..] == rest;
      [c[0]] + rest
  }

  /** `cart.pop(k, None)`: removes the key if it is there. */
  function Pop(c: Cart, k: ProductId): (r: Cart)
    ensures Lookup(r, k) == None
    ensures forall j :: j != k ==> Lookup(r, j) == Lookup(c, j)
    ensures KeysOf(r) == KeysOf(c) - {k}
    ensures Keyed(c) ==> Keyed(r)
    ensures k !in KeysOf(c) ==> r == c
  {
    if c == [] then []
    else if c[0].0 == k then Pop(c[1..], k)
    else
      var rest := Pop(c[1..], k);
      assert ([c[0]] + rest)[1..] == rest;
      [c[0]] + rest
  }

  /** Removing twice is removing once. */
  lemma PopIdempotent(c: Cart, k: ProductId)
    ensures Pop(Pop(c, k), k) == Pop(c, k)
  {
  }

  /**
   * The quantity orders/views.py reads from a line: `item_data.get('qty', 1)` for a
   * dictionary, the bare value otherwise.
   */
  function OrderQuantity(line: CartLine): (q: int)
    ensures line.Quantity? ==> q == line.count
    ensures line.Snapshot? && line.qty.Some? ==> q == line.qty.value
    ensures line.Snapshot? && line.qty.None? ==> q == 1
  {
    match line
    case Quantity(n) => n
    case Snapshot(q, _, _, _) => q.GetOr(1)
  }
}
