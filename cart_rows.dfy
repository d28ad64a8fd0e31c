/** The cart-item table as a sequence of rows in insertion order, and the
    row operations the cart and checkout handlers perform on it. */
module CartRows {
  import opened Records

  predicate Matches(row: CartItem, cartId: int, productId: int) {
    row.cartId == cartId && row.productId == productId
  }

  /** The compound unique key: no two rows share a (cartId, productId) pair. */
  ghost predicate UniqueKeys(rows: seq<CartItem>) {
    forall i, j | 0 <= i < j < |rows| ::
      rows[i].cartId != rows[j].cartId || rows[i].productId != rows[j].productId
  }

  /** The position of the first row with the key, or -1: a lookup by the unique key. */
  function IndexOf(rows: seq<CartItem>, cartId: int, productId: int): (k: int)
    ensures -1 <= k < |rows|
    ensures k >= 0 ==> Matches(rows[k], cartId, productId)
    ensures forall i | 0 <= i < |rows| && (k < 0 || i < k) :: !Matches(rows[i], cartId, productId)
  {
    if rows == [] then -1
    else if Matches(rows[0], cartId, productId) then 0
    else
      var k := IndexOf(rows[1..], cartId, productId);
      if k < 0 then -1 else k + 1
  }

  /** The quantity stored under the key, if a row has it. */
  function Quantity(rows: seq<CartItem>, cartId: int, productId: int): Option<int> {
    var k := IndexOf(rows, cartId, productId);
    if k < 0 then None else Some(rows[k].quantity)
  }

  /** Under unique keys, the row that has the key is the one the lookup finds. */
  lemma FoundAt(rows: seq<CartItem>, j: int, cartId: int, productId: int)
    requires UniqueKeys(rows)
    requires 0 <= j < |rows| && Matches(rows[j], cartId, productId)
    ensures IndexOf(rows, cartId, productId) == j
    ensures Quantity(rows, cartId, productId) == Some(rows[j].quantity)
  {
  }

  /** `cartItem.upsert`: increment the row with the key, or append a new one. */
  function Upsert(rows: seq<CartItem>, cartId: int, productId: int, quantity: int): (r: seq<CartItem>)
    ensures |r| == |rows| + (if Quantity(rows, cartId, productId).None? then 1 else 0)
    ensures forall i | 0 <= i < |rows| :: r[i].cartId == rows[i].cartId && r[i].productId == rows[i].productId
    ensures forall i | 0 <= i < |rows| && !Matches(rows[i], cartId, productId) :: r[i] == rows[i]
  {
    var k := IndexOf(rows, cartId, productId);
    if k >= 0 then rows[k := rows[k].(quantity := rows[k].quantity + quantity)]
    else rows + [CartItem(cartId, productId, quantity)]
  }

  /** `cartItem.update`: set the quantity of the row with the key, if there is one. */
  function Assign(rows: seq<CartItem>, cartId: int, productId: int, quantity: int): (r: seq<CartItem>)
    ensures |r| == |rows|
    ensures forall i | 0 <= i < |rows| :: r[i].cartId == rows[i].cartId && r[i].productId == rows[i].productId
    ensures forall i | 0 <= i < |rows| && !Matches(rows[i], cartId, productId) :: r[i] == rows[i]
  {
    var k := IndexOf(rows, cartId, productId);
    if k >= 0 then rows[k := rows[k].(quantity := quantity)] else rows
  }

  /** `cartItem.delete`: drop the row with the key, if there is one. */
  function Delete(rows: seq<CartItem>, cartId: int, productId: int): (r: seq<CartItem>)
    ensures |r| == |rows| - (if Quantity(rows, cartId, productId).Some? then 1 else 0)
    ensures forall x | x in r :: x in rows
  {
    var k := IndexOf(rows, cartId, productId);
    if k >= 0 then rows[..k] + rows[k + 1..] else rows
  }

  /** The rows of one cart, in table order. */
  function ItemsOf(rows: seq<CartItem>, cartId: int): (items: seq<CartItem>)
    ensures forall x :: x in items <==> x in rows && x.cartId == cartId
  {
    if rows == [] then []
    else (if rows[0].cartId == cartId then [rows[0]] else []) + ItemsOf(rows[1..], cartId)
  }

  /** `cartItem.deleteMany({ where: { cartId } })`: the rows of every other cart. */
  function ClearCart(rows: seq<CartItem>, cartId: int): (rest: seq<CartItem>)
    ensures forall x :: x in rest <==> x in rows && x.cartId != cartId
  {
    if rows == [] then []
    else (if rows[0].cartId != cartId then [rows[0]] else []) + ClearCart(rows[1..], cartId)
  }

  /** A cart that no row refers to has no items. */
  lemma {:induction false} NoItemsOf(rows: seq<CartItem>, cartId: int)
    requires forall x | x in rows :: x.cartId != cartId
    ensures ItemsOf(rows, cartId) == []
  {
    if rows != [] {
      assert rows[0] in rows;
      NoItemsOf(rows[1..], cartId);
    }
  }

  /** Prepending a row whose key is not in a unique table keeps it unique. */
  lemma UniqueCons(row: CartItem, rows: seq<CartItem>)
    requires UniqueKeys(rows)
    requires forall x | x in rows :: !Matches(x, row.cartId, row.productId)
    ensures UniqueKeys([row] + rows)
  {
    var s := [row] + rows;
    forall i, j | 0 <= i < j < |s|
      ensures s[i].cartId != s[j].cartId || s[i].productId != s[j].productId
    {
      if i == 0 {
        assert s[j] in rows;
      } else {
        assert s[i] == rows[i - 1] && s[j] == rows[j - 1];
      }
    }
  }

  /** The rows of one cart are a unique table, so no product appears twice among them. */
  lemma {:induction false} ItemsOfUnique(rows: seq<CartItem>, cartId: int)
    requires UniqueKeys(rows)
    ensures UniqueKeys(ItemsOf(rows, cartId))
    ensures forall i, j | 0 <= i < j < |ItemsOf(rows, cartId)| ::
      ItemsOf(rows, cartId)[i].productId != ItemsOf(rows, cartId)[j].productId
  {
    if rows != [] {
      assert UniqueKeys(rows[1..]) by {
        forall i, j | 0 <= i < j < |rows[1..]|
          ensures rows[1..][i].cartId != rows[1..][j].cartId || rows[1..][i].productId != rows[1..][j].productId
        {
          assert rows[1..][i] == rows[i + 1] && rows[1..][j] == rows[j + 1];
        }
      }
      ItemsOfUnique(rows[1..], cartId);
      if rows[0].cartId == cartId {
        forall x | x in ItemsOf(rows[1..], cartId) ensures !Matches(x, rows[0].cartId, rows[0].productId) {
          var j :| 1 <= j < |rows| && rows[j] == x;
        }
        UniqueCons(rows[0], ItemsOf(rows[1..], cartId));
      }
    }
    var items := ItemsOf(rows, cartId);
    forall i, j | 0 <= i < j < |items| ensures items[i].productId != items[j].productId {
      assert items[i] in items && items[j] in items;
    }
  }

  /** Clearing one cart keeps the table unique. */
  lemma {:induction false} ClearCartUnique(rows: seq<CartItem>, cartId: int)
    requires UniqueKeys(rows)
    ensures UniqueKeys(ClearCart(rows, cartId))
  {
    if rows != [] {
      assert UniqueKeys(rows[1..]) by {
        forall i, j | 0 <= i < j < |rows[1..]|
          ensures rows[1..][i].cartId != rows[1..][j].cartId || rows[1..][i].productId != rows[1..][j].productId
        {
          assert rows[1..][i] == rows[i + 1] && rows[1..][j] == rows[j + 1];
        }
      }
      ClearCartUnique(rows[1..], cartId);
      if rows[0].cartId != cartId {
        forall x | x in ClearCart(rows[1..], cartId) ensures !Matches(x, rows[0].cartId, rows[0].productId) {
          var j :| 1 <= j < |rows| && rows[j] == x;
        }
        UniqueCons(rows[0], ClearCart(rows[1..], cartId));
      }
    }
  }

  /** An upsert keeps the keys unique, adds `quantity` to the key's row (or
      creates it with `quantity`), and leaves every other key's quantity alone. */
  lemma UpsertEffect(rows: seq<CartItem>, cartId: int, productId: int, quantity: int)
    requires UniqueKeys(rows)
    ensures UniqueKeys(Upsert(rows, cartId, productId, quantity))
    ensures Quantity(Upsert(rows, cartId, productId, quantity), cartId, productId) ==
      Some(Quantity(rows, cartId, productId).GetOr(0) + quantity)
    ensures forall c, p | c != cartId || p != productId ::
      Quantity(Upsert(rows, cartId, productId, quantity), c, p) == Quantity(rows, c, p)
  {
    var k := IndexOf(rows, cartId, productId);
    var after := Upsert(rows, cartId, productId, quantity);
    assert |after| >= |rows|;
    assert forall i | 0 <= i < |rows| :: after[i].cartId == rows[i].cartId && after[i].productId == rows[i].productId;
    if k >= 0 {
      FoundAt(after, k, cartId, productId);
    } else {
      FoundAt(after, |rows|, cartId, productId);
    }
    forall c, p | c != cartId || p != productId
      ensures Quantity(after, c, p) == Quantity(rows, c, p)
    {
      var j := IndexOf(rows, c, p);
      if j >= 0 {
        FoundAt(after, j, c, p);
      } else {
        assert forall i | 0 <= i < |after| :: !Matches(after[i], c, p);
      }
    }
  }

  /** An assignment keeps the keys unique, sets the quantity of an existing
      key, and leaves every other key's quantity alone. */
  lemma AssignEffect(rows: seq<CartItem>, cartId: int, productId: int, quantity: int)
    requires UniqueKeys(rows)
    ensures UniqueKeys(Assign(rows, cartId, productId, quantity))
    ensures Quantity(Assign(rows, cartId, productId, quantity), cartId, productId) ==
      if Quantity(rows, cartId, productId).Some? then Some(quantity) else None
    ensures forall c, p | c != cartId || p != productId ::
      Quantity(Assign(rows, cartId, productId, quantity), c, p) == Quantity(rows, c, p)
  {
    var k := IndexOf(rows, cartId, productId);
    var after := Assign(rows, cartId, productId, quantity);
    assert |after| == |rows|;
    assert forall i | 0 <= i < |rows| :: after[i].cartId == rows[i].cartId && after[i].productId == rows[i].productId;
    if k >= 0 {
      FoundAt(after, k, cartId, productId);
    }
    forall c, p | c != cartId || p != productId
      ensures Quantity(after, c, p) == Quantity(rows, c, p)
    {
      var j := IndexOf(rows, c, p);
      if j >= 0 {
        FoundAt(after, j, c, p);
      }
    }
  }

  /** A deletion keeps the keys unique, removes the key, and leaves every
      other key's quantity alone. */
  lemma DeleteEffect(rows: seq<CartItem>, cartId: int, productId: int)
    requires UniqueKeys(rows)
    ensures UniqueKeys(Delete(rows, cartId, productId))
    ensures Quantity(Delete(rows, cartId, productId), cartId, productId) == None
    ensures forall c, p | c != cartId || p != productId ::
      Quantity(Delete(rows, cartId, productId), c, p) == Quantity(rows, c, p)
  {
    var k := IndexOf(rows, cartId, productId);
    var after := Delete(rows, cartId, productId);
    if k >= 0 {
      assert |after| == |rows| - 1;
      assert forall i | 0 <= i < k :: after[i] == rows[i];
      assert forall i | k <= i < |after| :: after[i] == rows[i + 1];
      forall i | 0 <= i < |after| ensures !Matches(after[i], cartId, productId) {
        if i >= k {
          assert rows[i + 1] == after[i];
        }
      }
      forall c, p | c != cartId || p != productId
        ensures Quantity(after, c, p) == Quantity(rows, c, p)
      {
        var j := IndexOf(rows, c, p);
        if j >= 0 {
          assert j != k;
          if j < k {
            FoundAt(after, j, c, p);
          } else {
            FoundAt(after, j - 1, c, p);
          }
        } else {
          forall i | 0 <= i < |after| ensures !Matches(after[i], c, p) {
            if i >= k {
              assert rows[i + 1] == after[i];
            }
          }
        }
      }
    }
  }

  /** After clearing a cart no key of that cart has a quantity; every other
      cart's quantities stay as they were. */
  lemma ClearCartEffect(rows: seq<CartItem>, cartId: int)
    requires UniqueKeys(rows)
    ensures UniqueKeys(ClearCart(rows, cartId))
    ensures ItemsOf(ClearCart(rows, cartId), cartId) == []
    ensures forall p :: Quantity(ClearCart(rows, cartId), cartId, p) == None
    ensures forall c, p | c != cartId :: Quantity(ClearCart(rows, cartId), c, p) == Quantity(rows, c, p)
  {
    var after := ClearCart(rows, cartId);
    ClearCartUnique(rows, cartId);
    NoItemsOf(after, cartId);
    forall c, p | c != cartId ensures Quantity(after, c, p) == Quantity(rows, c, p) {
      var j := IndexOf(rows, c, p);
      if j >= 0 {
        assert rows[j] in after;
        var i :| 0 <= i < |after| && after[i] == rows[j];
        FoundAt(after, i, c, p);
      } else {
        forall i | 0 <= i < |after| ensures !Matches(after[i], c, p) {
          assert after[i] in rows;
        }
      }
    }
  }
}
