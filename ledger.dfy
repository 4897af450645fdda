/**
 * The cart ledger of src/store/cartStore.ts: an append-only list of line items, one per
 * add-to-cart action, with removal by instance id, field-wise updates, clearing, an
 * open/closed flag for the cart sheet and the weight-aware item count shown on badges.
 * The ledger itself never clamps or rounds a quantity; bounds are the UI's business.
 */
module Ledger {
  import opened Wrappers
  import opened Objects
  import opened Numbers

  /** One cart line. Optional strings hold "" where the source leaves them `undefined`. */
  datatype CartItem = CartItem(
    instanceId: string,
    id: string,
    name: string,
    nameEn: string,
    nameAr: string,
    price: real,
    quantity: real,
    instructions: string,
    selectedOptions: Record,
    step: Option<real>,
    minQuantity: Option<real>)

  /** The argument of `addItem`. */
  datatype NewItem = NewItem(
    id: string,
    name: string,
    nameEn: string,
    nameAr: string,
    price: real,
    selectedOptions: Option<Record>,
    quantity: Option<real>,
    step: Option<real>,
    minQuantity: Option<real>,
    instructions: Option<string>)

  /** The line `addItem` appends for `n`, under the instance id it generated. */
  function NewLine(n: NewItem, instanceId: string): (line: CartItem)
    ensures line.instanceId == instanceId && line.id == n.id && line.name == n.name
    ensures line.price == n.price
    ensures line.nameEn == n.nameEn && line.nameAr == n.nameAr
    ensures line.step == n.step && line.minQuantity == n.minQuantity
    ensures Truthy(n.quantity) ==> line.quantity == n.quantity.value
    ensures !Truthy(n.quantity) && Truthy(n.minQuantity) ==> line.quantity == n.minQuantity.value
    ensures !Truthy(n.quantity) && !Truthy(n.minQuantity) ==> line.quantity == 1.0
    ensures line.quantity != 0.0
    ensures line.instructions == if n.instructions.Some? then n.instructions.value else ""
    ensures line.selectedOptions == if n.selectedOptions.Some? then n.selectedOptions.value else []
  {
    CartItem(
      instanceId, n.id, n.name, n.nameEn, n.nameAr, n.price,
      OrElse(n.quantity, OrElse(n.minQuantity, 1.0)),
      n.instructions.GetOr(""),
      n.selectedOptions.GetOr([]),
      n.step, n.minQuantity)
  }

  predicate HasLine(items: seq<CartItem>, instanceId: string) {
    exists i :: 0 <= i < |items| && items[i].instanceId == instanceId
  }

  /** Instance ids are pairwise distinct: what a freshly generated id per add keeps true. */
  predicate UniqueIds(items: seq<CartItem>) {
    forall i, j :: 0 <= i < j < |items| ==> items[i].instanceId != items[j].instanceId
  }

  /** `items.filter(item => item.instanceId !== instanceId)`. */
  function Without(items: seq<CartItem>, instanceId: string): (r: seq<CartItem>)
    ensures |r| <= |items|
    ensures forall x :: x in r <==> x in items && x.instanceId != instanceId
    ensures !HasLine(items, instanceId) ==> r == items
  {
    if items == [] then []
    else
      var rest := Without(items[1..], instanceId);
      assert !HasLine(items, instanceId) ==> !HasLine(items[1..], instanceId) by {
        if HasLine(items[1..], instanceId) {
          var i :| 0 <= i < |items[1..]| && items[1..][i].instanceId == instanceId;
          assert items[i + 1].instanceId == instanceId;
        }
      }
      assert items == [items[0]] + items[1..];
      if items[0].instanceId == instanceId then rest else [items[0]] + rest
  }

  /** `items.map(item => item.instanceId === instanceId ? f(item) : item)`. */
  function MapWhere(items: seq<CartItem>, instanceId: string, f: CartItem -> CartItem): (r: seq<CartItem>)
    ensures (forall x :: f(x).instanceId == x.instanceId) ==>
      |r| == |items| && forall i :: 0 <= i < |r| ==> r[i].instanceId == items[i].instanceId
  {
    seq(|items|, i requires 0 <= i < |items| =>
      if items[i].instanceId == instanceId then f(items[i]) else items[i])
  }

  /** Removal keeps order: it acts on two halves of the list independently. */
  lemma {:induction false} WithoutAppend(a: seq<CartItem>, b: seq<CartItem>, instanceId: string)
    ensures Without(a + b, instanceId) == Without(a, instanceId) + Without(b, instanceId)
  {
    if a == [] {
      assert a + b == b;
    } else {
      assert (a + b)[1..] == a[1..] + b;
      WithoutAppend(a[1..], b, instanceId);
    }
  }

  /** With distinct instance ids, removing an id that is present drops exactly one line. */
  lemma {:induction false} WithoutPresent(items: seq<CartItem>, instanceId: string)
    requires UniqueIds(items)
    requires HasLine(items, instanceId)
    ensures |Without(items, instanceId)| == |items| - 1
  {
    if items[0].instanceId == instanceId {
      assert !HasLine(items[1..], instanceId);
    } else {
      assert HasLine(items[1..], instanceId) by {
        var i :| 0 <= i < |items| && items[i].instanceId == instanceId;
        assert items[1..][i - 1].instanceId == instanceId;
      }
      WithoutPresent(items[1..], instanceId);
    }
  }

  lemma ConsKeepsIdsUnique(x: CartItem, rest: seq<CartItem>)
    requires UniqueIds(rest)
    requires forall j :: 0 <= j < |rest| ==> rest[j].instanceId != x.instanceId
    ensures UniqueIds([x] + rest)
  {
    var r := [x] + rest;
    forall i, j | 0 <= i < j < |r| ensures r[i].instanceId != r[j].instanceId {
      if i > 0 {
        assert r[i] == rest[i - 1] && r[j] == rest[j - 1];
      }
    }
  }

  /** Removal leaves no line with that id and keeps the other ids distinct. */
  lemma {:induction false} WithoutKeepsIdsUnique(items: seq<CartItem>, instanceId: string)
    requires UniqueIds(items)
    ensures UniqueIds(Without(items, instanceId))
    ensures !HasLine(Without(items, instanceId), instanceId)
  {
    var r := Without(items, instanceId);
    if items != [] {
      var tail := items[1..];
      assert UniqueIds(tail) by {
        forall i, j | 0 <= i < j < |tail| ensures tail[i].instanceId != tail[j].instanceId {
          assert tail[i] == items[i + 1] && tail[j] == items[j + 1];
        }
      }
      WithoutKeepsIdsUnique(tail, instanceId);
      var rest := Without(tail, instanceId);
      if items[0].instanceId != instanceId {
        forall j | 0 <= j < |rest| ensures rest[j].instanceId != items[0].instanceId {
          assert rest[j] in tail;
          var k :| 0 <= k < |tail| && tail[k] == rest[j];
          assert items[k + 1] == rest[j];
        }
        ConsKeepsIdsUnique(items[0], rest);
      }
    }
  }

  /** Updating fields leaves every instance id where it was. */
  lemma MapWhereKeepsIds(items: seq<CartItem>, instanceId: string, f: CartItem -> CartItem)
    requires forall x :: f(x).instanceId == x.instanceId
    ensures UniqueIds(items) ==> UniqueIds(MapWhere(items, instanceId, f))
    ensures forall i :: 0 <= i < |items| ==> MapWhere(items, instanceId, f)[i].instanceId == items[i].instanceId
  {
  }

  /** An update that keeps ids touches only the lines with that id: with them removed, the
   * list before and after is the same, in the same order. */
  lemma {:induction false} MapWhereLeavesOthers(items: seq<CartItem>, instanceId: string, f: CartItem -> CartItem)
    requires forall x :: f(x).instanceId == x.instanceId
    ensures Without(MapWhere(items, instanceId, f), instanceId) == Without(items, instanceId)
  {
    if items != [] {
      var m := MapWhere(items, instanceId, f);
      assert m[1..] == MapWhere(items[1..], instanceId, f);
      MapWhereLeavesOthers(items[1..], instanceId, f);
    }
  }

  /** A line sold by weight: `item.step && item.step < 1`. */
  predicate IsWeighed(line: CartItem) {
    Truthy(line.step) && line.step.value < 1.0
  }

  /** What one line adds to the item count: 1 for a weighed line, its quantity otherwise. */
  function LineCount(line: CartItem): real {
    if IsWeighed(line) then 1.0 else line.quantity
  }

  /** `getTotalItems`: the reduce over the lines, from the left. */
  function TotalItems(items: seq<CartItem>): real {
    if items == [] then 0.0 else TotalItems(items[..|items| - 1]) + LineCount(items[|items| - 1])
  }

  /** The number of weighed lines. */
  function WeighedLines(items: seq<CartItem>): nat {
    if items == [] then 0 else (if IsWeighed(items[0]) then 1 else 0) + WeighedLines(items[1..])
  }

  /** The sum of the quantities of the lines not sold by weight. */
  function PieceQuantity(items: seq<CartItem>): real {
    if items == [] then 0.0
    else (if IsWeighed(items[0]) then 0.0 else items[0].quantity) + PieceQuantity(items[1..])
  }

  lemma {:induction false} WeighedLinesSnoc(items: seq<CartItem>, x: CartItem)
    ensures WeighedLines(items + [x]) == WeighedLines(items) + (if IsWeighed(x) then 1 else 0)
    ensures PieceQuantity(items + [x]) == PieceQuantity(items) + (if IsWeighed(x) then 0.0 else x.quantity)
  {
    if items != [] {
      assert (items + [x])[1..] == items[1..] + [x];
      WeighedLinesSnoc(items[1..], x);
    }
  }

  /**
   * The item count is the number of weighed lines plus the summed quantities of all other
   * lines: a 1.5 kg line counts as one item.
   */
  lemma {:induction false} TotalItemsSplit(items: seq<CartItem>)
    ensures TotalItems(items) == WeighedLines(items) as real + PieceQuantity(items)
    decreases |items|
  {
    if items != [] {
      var init := items[..|items| - 1];
      var last := items[|items| - 1];
      TotalItemsSplit(init);
      assert init + [last] == items;
      WeighedLinesSnoc(init, last);
    }
  }

  /** `price * quantity` of one line. */
  function LineTotal(line: CartItem): real {
    line.price * line.quantity
  }

  /** The sum of `price * quantity` over the lines, reduced from the left. */
  function LinesTotal(items: seq<CartItem>): real {
    if items == [] then 0.0 else LinesTotal(items[..|items| - 1]) + LineTotal(items[|items| - 1])
  }

  /** Totals add up over any split of the cart. */
  lemma {:induction false} LinesTotalAppend(a: seq<CartItem>, b: seq<CartItem>)
    ensures LinesTotal(a + b) == LinesTotal(a) + LinesTotal(b)
    ensures TotalItems(a + b) == TotalItems(a) + TotalItems(b)
    decreases |b|
  {
    if b == [] {
      assert a + b == a;
    } else {
      assert (a + b)[..|a + b| - 1] == a + b[..|b| - 1];
      LinesTotalAppend(a, b[..|b| - 1]);
    }
  }

  /** With no negative price or quantity, the total is never negative. */
  lemma {:induction false} LinesTotalNonNegative(items: seq<CartItem>)
    requires forall i :: 0 <= i < |items| ==> items[i].price >= 0.0 && items[i].quantity >= 0.0
    ensures LinesTotal(items) >= 0.0
    decreases |items|
  {
    if items != [] {
      LinesTotalNonNegative(items[..|items| - 1]);
    }
  }

  /** The zustand store: its `items` and `isCartOpen` fields and the actions that replace them. */
  class CartStore {
    var items: seq<CartItem>
    var isCartOpen: bool

    /** The ledger invariant that holds as long as every generated instance id is fresh. */
    ghost predicate Valid()
      reads this
    {
      UniqueIds(items)
    }

    constructor ()
      ensures items == [] && !isCartOpen && Valid()
    {
      items := [];
      isCartOpen := false;
    }

    method ToggleCart()
      modifies this
      ensures isCartOpen == !old(isCartOpen) && items == old(items)
    {
      isCartOpen := !isCartOpen;
    }

    method SetCartOpen(isOpen: bool)
      modifies this
      ensures isCartOpen == isOpen && items == old(items)
    {
      isCartOpen := isOpen;
    }

    /** `addItem`; `instanceId` stands for the id drawn from `Math.random`. */
    method AddItem(n: NewItem, instanceId: string)
      modifies this
      ensures items == old(items) + [NewLine(n, instanceId)]
      ensures isCartOpen == old(isCartOpen)
      ensures old(Valid()) && !HasLine(old(items), instanceId) ==> Valid()
    {
      items := items + [NewLine(n, instanceId)];
    }

    method RemoveItem(instanceId: string)
      modifies this
      ensures items == Without(old(items), instanceId)
      ensures !HasLine(old(items), instanceId) ==> items == old(items)
      ensures old(Valid()) ==> Valid() && |items| == |old(items)| - (if HasLine(old(items), instanceId) then 1 else 0)
      ensures isCartOpen == old(isCartOpen)
    {
      if Valid() {
        WithoutKeepsIdsUnique(items, instanceId);
        if HasLine(items, instanceId) {
          WithoutPresent(items, instanceId);
        }
      }
      items := Without(items, instanceId);
    }

    method UpdateQuantity(instanceId: string, quantity: real)
      modifies this
      ensures |items| == |old(items)| && isCartOpen == old(isCartOpen)
      ensures forall i :: 0 <= i < |items| && old(items)[i].instanceId != instanceId ==> items[i] == old(items)[i]
      ensures forall i :: 0 <= i < |items| && old(items)[i].instanceId == instanceId ==>
        items[i] == old(items)[i].(quantity := quantity)
      ensures old(Valid()) ==> Valid()
    {
      var f := (line: CartItem) => line.(quantity := quantity);
      MapWhereKeepsIds(items, instanceId, f);
      items := MapWhere(items, instanceId, f);
    }

    method UpdateInstructions(instanceId: string, instructions: string)
      modifies this
      ensures |items| == |old(items)| && isCartOpen == old(isCartOpen)
      ensures forall i :: 0 <= i < |items| && old(items)[i].instanceId != instanceId ==> items[i] == old(items)[i]
      ensures forall i :: 0 <= i < |items| && old(items)[i].instanceId == instanceId ==>
        items[i] == old(items)[i].(instructions := instructions)
      ensures old(Valid()) ==> Valid()
    {
      var f := (line: CartItem) => line.(instructions := instructions);
      MapWhereKeepsIds(items, instanceId, f);
      items := MapWhere(items, instanceId, f);
    }

    method UpdateOptions(instanceId: string, options: Record)
      modifies this
      ensures |items| == |old(items)| && isCartOpen == old(isCartOpen)
      ensures forall i :: 0 <= i < |items| && old(items)[i].instanceId != instanceId ==> items[i] == old(items)[i]
      ensures forall i :: 0 <= i < |items| && old(items)[i].instanceId == instanceId ==>
        items[i] == old(items)[i].(selectedOptions := options)
      ensures old(Valid()) ==> Valid()
    {
      var f := (line: CartItem) => line.(selectedOptions := options);
      MapWhereKeepsIds(items, instanceId, f);
      items := MapWhere(items, instanceId, f);
    }

    method ClearCart()
      modifies this
      ensures items == [] && isCartOpen == old(isCartOpen) && Valid()
    {
      items := [];
    }

    /** `getTotalItems()`: one per weighed line plus the quantities of the other lines. */
    function GetTotalItems(): (r: real)
      reads this
      ensures r == WeighedLines(items) as real + PieceQuantity(items)
    {
      TotalItemsSplit(items);
      TotalItems(items)
    }
  }
}
