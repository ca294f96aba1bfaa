/**
 * The register screen (app/mainpos/ClientMainPos.tsx): the twelve sample
 * products, the catalogue made unique by name, the stock count per name, the
 * product search and category filter, and the cart with its add, remove-one,
 * remove-all, quantity lookup and total.
 *
 * The cart updaters are the pure functions handed to `setCart`; the `Cart`
 * class holds the `cart` state they replace.
 */
module MainPos {
  import opened Wrappers
  import Text
  import Seqs

  datatype Product = Product(id: int, name: string, price: int)

  /** One cart line: a product id and a quantity. */
  datatype CartLine = CartLine(id: int, qty: int)

  /** A stock cap: a count, or `Infinity`. */
  datatype Limit = Finite(n: int) | Unlimited

  function SampleName(k: nat): string
    requires k < 4
  {
    ["Bread", "Canned Food", "Coke Mismo", "Egg"][k]
  }

  function SamplePrice(k: nat): int
    requires k < 4
  {
    [20, 23, 25, 11][k]
  }

  /** `sampleProducts`: ids 1..12 cycling through four names and prices. */
  function SampleProducts(): (ps: seq<Product>)
    ensures |ps| == 12
    ensures forall i :: 0 <= i < 12 ==> ps[i] == Product(i + 1, SampleName(i % 4), SamplePrice(i % 4))
  {
    seq(12, i requires 0 <= i < 12 => Product(i + 1, SampleName(i % 4), SamplePrice(i % 4)))
  }

  /** `productCategories`. */
  const ProductCategories: map<string, string> :=
    map["Bread" := "Groceries", "Canned Food" := "Groceries", "Coke Mismo" := "Beverages", "Egg" := "Groceries"]

  // ---------------------------------------------------------------------------
  // The catalogue unique by name: `new Map(products.map(p => [p.name, p])).values()`

  /** `Map.set(p.name, p)`: a name already present keeps its place and takes the new value; a new name goes last. */
  function Put(us: seq<Product>, p: Product): seq<Product> {
    if us == [] then [p]
    else if us[0].name == p.name then [p] + us[1..]
    else [us[0]] + Put(us[1..], p)
  }

  /** The values of the `Map` built from the products in order. */
  function UniqueByName(ps: seq<Product>): seq<Product> {
    if ps == [] then [] else Put(UniqueByName(ps[..|ps| - 1]), ps[|ps| - 1])
  }

  predicate DistinctNames(us: seq<Product>) {
    forall i, j :: 0 <= i < j < |us| ==> us[i].name != us[j].name
  }

  /** `x` is the last product of `ps` carrying its name. */
  predicate IsLastOfName(ps: seq<Product>, x: Product) {
    exists k :: 0 <= k < |ps| && ps[k] == x && forall k' :: k < k' < |ps| ==> ps[k'].name != x.name
  }

  lemma {:induction false} PutSpec(us: seq<Product>, p: Product)
    requires DistinctNames(us)
    ensures DistinctNames(Put(us, p))
    ensures p in Put(us, p)
    ensures forall x :: x in Put(us, p) ==> x == p || (x in us && x.name != p.name)
    ensures forall x :: x in us && x.name != p.name ==> x in Put(us, p)
  {
    if us != [] && us[0].name != p.name {
      PutSpec(us[1..], p);
      var r := Put(us, p);
      assert r == [us[0]] + Put(us[1..], p);
      forall i, j | 0 <= i < j < |r| ensures r[i].name != r[j].name {
        if i == 0 {
          assert r[j] in Put(us[1..], p);
        }
      }
    }
  }

  /** The catalogue has exactly one entry per distinct name. */
  lemma {:induction false} UniqueByNameDistinct(ps: seq<Product>)
    ensures DistinctNames(UniqueByName(ps))
  {
    if ps != [] {
      UniqueByNameDistinct(ps[..|ps| - 1]);
      PutSpec(UniqueByName(ps[..|ps| - 1]), ps[|ps| - 1]);
    }
  }

  /** Every name of the products has an entry in the catalogue. */
  lemma {:induction false} UniqueByNameCovers(ps: seq<Product>, i: int)
    requires 0 <= i < |ps|
    ensures exists x :: x in UniqueByName(ps) && x.name == ps[i].name
  {
    var n := |ps| - 1;
    var prev := UniqueByName(ps[..n]);
    UniqueByNameDistinct(ps[..n]);
    PutSpec(prev, ps[n]);
    var r := UniqueByName(ps);
    if i < n && ps[i].name != ps[n].name {
      UniqueByNameCovers(ps[..n], i);
      assert ps[..n][i] == ps[i];
      var x :| x in prev && x.name == ps[i].name;
      assert x in r;
    } else {
      assert ps[n] in r;
    }
  }

  /** The catalogue entry carrying the name of product `i`. */
  lemma EntryForName(ps: seq<Product>, i: int) returns (x: Product)
    requires 0 <= i < |ps|
    ensures x in UniqueByName(ps) && x.name == ps[i].name
  {
    UniqueByNameCovers(ps, i);
    x :| x in UniqueByName(ps) && x.name == ps[i].name;
  }

  /**
   * The entry kept for a name is the LAST product with that name: a later
   * `set` overwrites the value, and only the key's position stays first.
   */
  lemma {:induction false} UniqueByNameKeepsLast(ps: seq<Product>)
    ensures forall x :: x in UniqueByName(ps) ==> IsLastOfName(ps, x)
  {
    if ps != [] {
      var n := |ps| - 1;
      var prev := UniqueByName(ps[..n]);
      UniqueByNameKeepsLast(ps[..n]);
      UniqueByNameDistinct(ps[..n]);
      PutSpec(prev, ps[n]);
      forall x | x in UniqueByName(ps) ensures IsLastOfName(ps, x) {
        if x == ps[n] {
          assert ps[n] == x;
        } else {
          LastOfNameExtend(ps, x);
        }
      }
    }
  }

  lemma LastOfNameExtend(ps: seq<Product>, x: Product)
    requires ps != [] && IsLastOfName(ps[..|ps| - 1], x) && x.name != ps[|ps| - 1].name
    ensures IsLastOfName(ps, x)
  {
    var n := |ps| - 1;
    var k :| 0 <= k < n && ps[..n][k] == x && forall k' :: k < k' < n ==> ps[..n][k'].name != x.name;
    assert ps[k] == x;
    forall k' | k < k' < |ps| ensures ps[k'].name != x.name {
      if k' < n {
        assert ps[..n][k'] == ps[k'];
      }
    }
  }

  // ---------------------------------------------------------------------------
  // Stock per name: `reduce((acc, p) => { acc[p.name] = (acc[p.name] || 0) + 1 }, {})`

  function InventoryByName(ps: seq<Product>): map<string, int> {
    if ps == [] then map[]
    else
      var acc := InventoryByName(ps[..|ps| - 1]);
      var name := ps[|ps| - 1].name;
      acc[name := (if name in acc then acc[name] else 0) + 1]
  }

  /** How many products carry the name. */
  function CountName(ps: seq<Product>, name: string): nat {
    if ps == [] then 0 else CountName(ps[..|ps| - 1], name) + (if ps[|ps| - 1].name == name then 1 else 0)
  }

  /** `inventoryByName` has a key exactly for the names that occur, and counts each name's products. */
  lemma {:induction false} InventoryByNameCounts(ps: seq<Product>)
    ensures forall name :: name in InventoryByName(ps) <==> CountName(ps, name) > 0
    ensures forall name :: name in InventoryByName(ps) ==> InventoryByName(ps)[name] == CountName(ps, name)
  {
    if ps != [] {
      InventoryByNameCounts(ps[..|ps| - 1]);
    }
  }

  /** Among the first `k` sample products, name number `r` occurs once per full cycle of four. */
  lemma {:induction false} SampleCountPrefix(k: nat, r: nat)
    requires k <= 12 && r < 4
    ensures CountName(SampleProducts()[..k], SampleName(r)) == (k + 3 - r) / 4
  {
    var ps := SampleProducts();
    if k > 0 {
      SampleCountPrefix(k - 1, r);
      assert ps[..k][..k - 1] == ps[..k - 1];
      assert ps[..k][k - 1] == ps[k - 1];
      var j := (k - 1) % 4;
      assert (SampleName(j) == SampleName(r)) <==> j == r;
      CycleStep(k, r);
    }
  }

  /** One more product adds one to the count of name `r` exactly when its position is `r` modulo four. */
  lemma CycleStep(k: nat, r: nat)
    requires 0 < k && r < 4
    ensures (k + 3 - r) / 4 == (k + 2 - r) / 4 + (if (k - 1) % 4 == r then 1 else 0)
  {
    var q, s := (k - 1) / 4, (k - 1) % 4;
    assert k + 3 - r == 4 * q + (s + 4 - r);
    assert k + 2 - r == 4 * q + (s + 3 - r);
    assert (s + 4 - r) / 4 == (if s >= r then 1 else 0);
    assert (s + 3 - r) / 4 == (if s > r then 1 else 0);
  }

  /** The sample holds three products of each name. */
  lemma SampleCounts(r: nat)
    requires r < 4
    ensures SampleName(r) in InventoryByName(SampleProducts())
    ensures InventoryByName(SampleProducts())[SampleName(r)] == 3
  {
    SampleCountPrefix(12, r);
    assert SampleProducts()[..12] == SampleProducts();
    InventoryByNameCounts(SampleProducts());
  }

  /** `uniqueProducts.find(p => p.id === id)`. */
  function FindProduct(ps: seq<Product>, id: int): (r: Option<Product>)
    ensures r.Some? ==> r.value in ps && r.value.id == id
    ensures r.None? <==> forall i :: 0 <= i < |ps| ==> ps[i].id != id
  {
    if ps == [] then None else if ps[0].id == id then Some(ps[0]) else FindProduct(ps[1..], id)
  }

  /** The catalogue shown on the register. */
  function Catalogue(): seq<Product> {
    UniqueByName(SampleProducts())
  }

  /** The cap `addToCart` uses: the product's name count, or `Infinity` when the id is not in the catalogue. */
  function StockFor(id: int): Limit {
    var inventory := InventoryByName(SampleProducts());
    match FindProduct(Catalogue(), id)
    case None => Unlimited
    case Some(p) => if p.name != "" && p.name in inventory then Finite(inventory[p.name]) else Unlimited
  }

  /** Every catalogue entry is one of the last four sample products. */
  lemma CatalogueEntries()
    ensures forall j :: 0 <= j < |Catalogue()| ==>
      9 <= Catalogue()[j].id <= 12 && Catalogue()[j] == SampleProducts()[Catalogue()[j].id - 1]
  {
    var ps := SampleProducts();
    var us := Catalogue();
    UniqueByNameKeepsLast(ps);
    forall j | 0 <= j < |us| ensures 9 <= us[j].id <= 12 && us[j] == ps[us[j].id - 1] {
      var x := us[j];
      assert x in UniqueByName(ps);
      var k :| 0 <= k < |ps| && ps[k] == x && forall k' :: k < k' < |ps| ==> ps[k'].name != x.name;
      if k < 8 {
        NameRecurs(k);
      }
      assert k >= 8;
    }
  }

  /** Each of the last four sample products is in the catalogue. */
  lemma CatalogueHas(id: int)
    requires 9 <= id <= 12
    ensures SampleProducts()[id - 1] in Catalogue()
  {
    var ps := SampleProducts();
    var us := Catalogue();
    var i := id - 1;
    var x := EntryForName(ps, i);
    var k :| 0 <= k < |us| && us[k] == x;
    CatalogueEntries();
    assert 9 <= us[k].id <= 12 && us[k] == ps[us[k].id - 1];
    var j := x.id - 1;
    assert 8 <= j <= 11 && x == ps[j];
    LastCycle(i);
    LastCycle(j);
    SampleNameInjective(j - 8, i - 8);
  }

  /** The last four sample products are the last cycle of names, in order. */
  lemma LastCycle(i: int)
    requires 8 <= i < 12
    ensures SampleProducts()[i].name == SampleName(i - 8)
  {
    if i == 8 {
      assert 8 % 4 == 0;
    } else if i == 9 {
      assert 9 % 4 == 1;
    } else if i == 10 {
      assert 10 % 4 == 2;
    } else {
      assert 11 % 4 == 3;
    }
  }

  /** The names cycle with period four. */
  lemma NameRecurs(k: int)
    requires 0 <= k < 8
    ensures SampleProducts()[k + 4].name == SampleProducts()[k].name
  {
    assert (k + 4) % 4 == k % 4;
  }

  lemma SampleNameInjective(a: nat, b: nat)
    requires a < 4 && b < 4 && SampleName(a) == SampleName(b)
    ensures a == b
  {
  }

  /**
   * The catalogue keeps products 9..12, each capped at three; products 1..8
   * are not in it, so `addToCart` would not cap them.
   */
  lemma SampleStock(id: int)
    ensures 9 <= id <= 12 ==> StockFor(id) == Finite(3)
    ensures !(9 <= id <= 12) ==> StockFor(id) == Unlimited
  {
    var ps := SampleProducts();
    CatalogueEntries();
    if 9 <= id <= 12 {
      CatalogueHas(id);
      var found := FindProduct(Catalogue(), id);
      assert found.Some?;
      assert found.value == ps[id - 1];
      SampleCounts((id - 1) % 4);
    } else {
      assert FindProduct(Catalogue(), id).None?;
    }
  }

  // ---------------------------------------------------------------------------
  // The product search and category filter

  /** `matchesQuery && matchesCategory` (the query is lower-cased but not trimmed). */
  predicate Shown(p: Product, query: string, category: string) {
    Text.Contains(Text.Lower(p.name), Text.Lower(query))
    && (category == "All items" || (p.name in ProductCategories && ProductCategories[p.name] == category))
  }

  function VisibleProducts(ps: seq<Product>, query: string, category: string): seq<Product> {
    Seqs.Filter(ps, p => Shown(p, query, category))
  }

  /** The list shown keeps the catalogue order and holds exactly the entries that pass both tests. */
  lemma VisibleProductsContents(ps: seq<Product>, query: string, category: string)
    ensures Seqs.IsSubseq(VisibleProducts(ps, query, category), ps)
    ensures forall i :: 0 <= i < |ps| ==> (ps[i] in VisibleProducts(ps, query, category) <==> Shown(ps[i], query, category))
  {
    Seqs.FilterIsSubseq(ps, p => Shown(p, query, category));
  }

  /** With an empty query and "All items" the whole catalogue is shown. */
  lemma VisibleProductsAll(ps: seq<Product>)
    ensures VisibleProducts(ps, "", "All items") == ps
  {
    forall p | p in ps ensures Shown(p, "", "All items") {
      Text.ContainsTrivial(Text.Lower(p.name));
    }
    Seqs.FilterAll(ps, p => Shown(p, "", "All items"));
  }

  // ---------------------------------------------------------------------------
  // Cart updaters

  /** `cart.find(c => c.id === id)`. */
  function FindLine(lines: seq<CartLine>, id: int): (r: Option<CartLine>)
    ensures r.Some? ==> r.value in lines && r.value.id == id
    ensures r.None? <==> forall i :: 0 <= i < |lines| ==> lines[i].id != id
    ensures forall i :: 0 <= i < |lines| && lines[i].id == id && (forall j :: 0 <= j < i ==> lines[j].id != id) ==>
      r == Some(lines[i])
  {
    if lines == [] then None else if lines[0].id == id then Some(lines[0]) else FindLine(lines[1..], id)
  }

  /** `qtyFor`: the quantity of the id's line, 0 when there is none. */
  function QtyIn(lines: seq<CartLine>, id: int): (r: int)
    ensures (forall i :: 0 <= i < |lines| ==> lines[i].id != id) ==> r == 0
    ensures r == 0 || exists i :: 0 <= i < |lines| && lines[i] == CartLine(id, r)
    ensures forall i :: 0 <= i < |lines| && lines[i].id == id && (forall j :: 0 <= j < i ==> lines[j].id != id) ==>
      r == lines[i].qty
  {
    match FindLine(lines, id)
    case Some(line) => line.qty
    case None => 0
  }

  /** Adds `delta` to the quantity of every line with the id (`prev.map(p => p.id === id ? {...p, qty: p.qty + delta} : p)`). */
  function Bump(lines: seq<CartLine>, id: int, delta: int): (r: seq<CartLine>)
    ensures |r| == |lines|
    ensures forall i :: 0 <= i < |lines| ==>
      r[i] == if lines[i].id == id then CartLine(id, lines[i].qty + delta) else lines[i]
  {
    if lines == [] then []
    else [if lines[0].id == id then CartLine(id, lines[0].qty + delta) else lines[0]] + Bump(lines[1..], id, delta)
  }

  /** The guard of `addToCart`: the quantity already in the cart is below the cap. */
  predicate CanAdd(lines: seq<CartLine>, id: int, stock: Limit) {
    match stock
    case Unlimited => true
    case Finite(n) => QtyIn(lines, id) < n
  }

  /** The updater of `addToCart`: increment the id's line, or append a line of one. */
  function AddedLines(lines: seq<CartLine>, id: int): seq<CartLine> {
    if FindLine(lines, id).Some? then Bump(lines, id, 1) else lines + [CartLine(id, 1)]
  }

  /** `prev.filter(p => p.id !== id)`. */
  function RemovedAll(lines: seq<CartLine>, id: int): seq<CartLine> {
    Seqs.Filter(lines, (l: CartLine) => l.id != id)
  }

  /** The updater of `removeFromCart`: nothing for an absent id, drop a line of one or less, else decrement. */
  function RemovedOne(lines: seq<CartLine>, id: int): seq<CartLine> {
    match FindLine(lines, id)
    case None => lines
    case Some(found) => if found.qty <= 1 then RemovedAll(lines, id) else Bump(lines, id, -1)
  }

  predicate IsSampleId(id: int) {
    1 <= id <= 12
  }

  /** `sampleProducts.find(p => p.id === it.id)!.price`: product `id` sits at index `id - 1`. */
  function PriceOf(id: int): int
    requires IsSampleId(id)
  {
    SampleProducts()[id - 1].price
  }

  /** `total`: the sum of price times quantity over the lines. */
  function TotalOf(lines: seq<CartLine>): int
    requires forall i :: 0 <= i < |lines| ==> IsSampleId(lines[i].id)
  {
    if lines == [] then 0 else PriceOf(lines[0].id) * lines[0].qty + TotalOf(lines[1..])
  }

  /**
   * The cart invariant: one line per id, every quantity at least one and at
   * most the id's cap, every id a sample product.
   */
  predicate CartInvariant(lines: seq<CartLine>, stock: int -> Limit) {
    (forall i, j :: 0 <= i < j < |lines| ==> lines[i].id != lines[j].id)
    && (forall i :: 0 <= i < |lines| ==> IsSampleId(lines[i].id) && lines[i].qty >= 1)
    && (forall i :: 0 <= i < |lines| ==> stock(lines[i].id).Finite? ==> lines[i].qty <= stock(lines[i].id).n)
  }

  /** With unique ids, the line found for an id is the one at that id's index. */
  lemma FindLineUnique(lines: seq<CartLine>, id: int, i: int)
    requires forall a, b :: 0 <= a < b < |lines| ==> lines[a].id != lines[b].id
    requires 0 <= i < |lines| && lines[i].id == id
    ensures FindLine(lines, id) == Some(lines[i])
  {
    var r := FindLine(lines, id);
    var j :| 0 <= j < |lines| && lines[j] == r.value;
    assert lines[j].id == lines[i].id;
    assert j == i;
  }

  /** Adding raises the id's quantity by one and changes no other id's quantity. */
  lemma AddSpec(lines: seq<CartLine>, id: int, stock: int -> Limit)
    requires CartInvariant(lines, stock)
    ensures QtyIn(AddedLines(lines, id), id) == QtyIn(lines, id) + 1
    ensures forall other :: other != id ==> QtyIn(AddedLines(lines, id), other) == QtyIn(lines, other)
    ensures FindLine(lines, id).Some? ==> |AddedLines(lines, id)| == |lines|
    ensures FindLine(lines, id).None? ==> AddedLines(lines, id) == lines + [CartLine(id, 1)]
  {
    if FindLine(lines, id).Some? {
      var i :| 0 <= i < |lines| && lines[i] == FindLine(lines, id).value;
      AddFound(lines, id, i);
    } else {
      AddNew(lines, id);
    }
  }

  /** Adding an id the cart holds at index `i` bumps that line and finds every other id as before. */
  lemma AddFound(lines: seq<CartLine>, id: int, i: int)
    requires forall a, b :: 0 <= a < b < |lines| ==> lines[a].id != lines[b].id
    requires 0 <= i < |lines| && lines[i].id == id
    ensures QtyIn(Bump(lines, id, 1), id) == lines[i].qty + 1
    ensures forall other :: other != id ==> QtyIn(Bump(lines, id, 1), other) == QtyIn(lines, other)
  {
    var r := Bump(lines, id, 1);
    assert r[i] == CartLine(id, lines[i].qty + 1);
    assert forall a :: 0 <= a < |r| ==> r[a].id == lines[a].id;
    FindLineUnique(r, id, i);
    forall other | other != id ensures QtyIn(r, other) == QtyIn(lines, other) {
      FindLineFrame(lines, r, other);
    }
  }

  /** Adding an id the cart lacks appends a line of one and finds every other id as before. */
  lemma AddNew(lines: seq<CartLine>, id: int)
    requires FindLine(lines, id).None?
    ensures QtyIn(lines + [CartLine(id, 1)], id) == 1
    ensures forall other :: other != id ==> QtyIn(lines + [CartLine(id, 1)], other) == QtyIn(lines, other)
  {
    FindLineAppend(lines, CartLine(id, 1), id);
    forall other | other != id ensures QtyIn(lines + [CartLine(id, 1)], other) == QtyIn(lines, other) {
      FindLineAppend(lines, CartLine(id, 1), other);
    }
  }

  /** Lines with another id are found alike in two carts that agree on every line but the bumped id's. */
  lemma {:induction false} FindLineFrame(a: seq<CartLine>, b: seq<CartLine>, other: int)
    requires |a| == |b|
    requires forall i :: 0 <= i < |a| ==> a[i].id == b[i].id
    requires forall i :: 0 <= i < |a| && a[i].id == other ==> a[i] == b[i]
    ensures FindLine(a, other) == FindLine(b, other)
  {
    if a != [] {
      FindLineFrame(a[1..], b[1..], other);
    }
  }

  /** Looking up in a cart with a line appended finds the old line, or the new one when the id is new. */
  lemma {:induction false} FindLineAppend(lines: seq<CartLine>, x: CartLine, id: int)
    ensures FindLine(lines + [x], id) ==
      if FindLine(lines, id).Some? then FindLine(lines, id) else if x.id == id then Some(x) else None
  {
    if lines != [] {
      assert (lines + [x])[1..] == lines[1..] + [x];
      FindLineAppend(lines[1..], x, id);
    } else {
      assert [x][1..] == [];
    }
  }

  /** A permitted add keeps the cart invariant. */
  lemma AddKeepsInvariant(lines: seq<CartLine>, id: int, stock: int -> Limit)
    requires CartInvariant(lines, stock) && IsSampleId(id) && CanAdd(lines, id, stock(id))
    ensures CartInvariant(AddedLines(lines, id), stock)
  {
    if FindLine(lines, id).Some? {
      var i :| 0 <= i < |lines| && lines[i] == FindLine(lines, id).value;
      FindLineUnique(lines, id, i);
      AddFoundKeepsInvariant(lines, id, stock, i);
    } else {
      AddNewKeepsInvariant(lines, id, stock);
    }
  }

  lemma AddFoundKeepsInvariant(lines: seq<CartLine>, id: int, stock: int -> Limit, i: int)
    requires CartInvariant(lines, stock) && 0 <= i < |lines| && lines[i].id == id
    requires stock(id).Finite? ==> lines[i].qty < stock(id).n
    ensures CartInvariant(Bump(lines, id, 1), stock)
  {
    var r := Bump(lines, id, 1);
    forall k | 0 <= k < |r| ensures r[k].id == lines[k].id && r[k].qty >= lines[k].qty {
    }
    forall k | 0 <= k < |r| && k != i ensures r[k] == lines[k] {
      assert lines[k].id != id;
    }
  }

  lemma AddNewKeepsInvariant(lines: seq<CartLine>, id: int, stock: int -> Limit)
    requires CartInvariant(lines, stock) && IsSampleId(id) && FindLine(lines, id).None?
    requires stock(id).Finite? ==> 0 < stock(id).n
    ensures CartInvariant(lines + [CartLine(id, 1)], stock)
  {
    var r := lines + [CartLine(id, 1)];
    forall k | 0 <= k < |lines| ensures r[k] == lines[k] {
    }
  }

  /** Removing one unit keeps the cart invariant. */
  lemma RemoveOneKeepsInvariant(lines: seq<CartLine>, id: int, stock: int -> Limit)
    requires CartInvariant(lines, stock)
    ensures CartInvariant(RemovedOne(lines, id), stock)
  {
    if FindLine(lines, id).Some? {
      if FindLine(lines, id).value.qty <= 1 {
        RemoveAllKeepsInvariant(lines, id, stock);
      } else {
        DecrementKeepsInvariant(lines, id, stock);
      }
    }
  }

  /** Taking one unit off a line of two or more keeps the cart invariant. */
  lemma DecrementKeepsInvariant(lines: seq<CartLine>, id: int, stock: int -> Limit)
    requires CartInvariant(lines, stock)
    requires FindLine(lines, id).Some? && FindLine(lines, id).value.qty > 1
    ensures CartInvariant(Bump(lines, id, -1), stock)
  {
    var r := Bump(lines, id, -1);
    forall k | 0 <= k < |r|
      ensures r[k].id == lines[k].id && 1 <= r[k].qty <= lines[k].qty
    {
      if lines[k].id == id {
        FindLineUnique(lines, id, k);
      }
    }
  }

  /** Removing an id's line keeps the invariant and no line with that id remains. */
  lemma RemoveAllKeepsInvariant(lines: seq<CartLine>, id: int, stock: int -> Limit)
    requires CartInvariant(lines, stock)
    ensures CartInvariant(RemovedAll(lines, id), stock)
    ensures FindLine(RemovedAll(lines, id), id).None?
  {
    var keep := (l: CartLine) => l.id != id;
    var r := RemovedAll(lines, id);
    Seqs.FilterIsSubseq(lines, keep);
    SubseqUniqueIds(r, lines);
  }

  /** An order-preserving subsequence of a cart with unique ids has unique ids. */
  lemma {:induction false} SubseqUniqueIds(a: seq<CartLine>, b: seq<CartLine>)
    requires Seqs.IsSubseq(a, b)
    requires forall i, j :: 0 <= i < j < |b| ==> b[i].id != b[j].id
    ensures forall i, j :: 0 <= i < j < |a| ==> a[i].id != a[j].id
    decreases |b|
  {
    if a != [] && b != [] {
      if a[0] == b[0] {
        SubseqUniqueIds(a[1..], b[1..]);
        Seqs.SubseqDropHead(a, b);
        forall j | 0 < j < |a| ensures a[0].id != a[j].id {
          SubseqMember(a[1..], b[1..], j - 1);
          var k :| 0 <= k < |b[1..]| && b[1..][k] == a[j];
          assert b[k + 1] == a[j];
        }
        forall i, j | 0 <= i < j < |a| ensures a[i].id != a[j].id {
          if i > 0 {
            assert a[1..][i - 1] == a[i] && a[1..][j - 1] == a[j];
          }
        }
      } else {
        SubseqUniqueIds(a, b[1..]);
      }
    }
  }

  /** Every element of a subsequence is an element of the sequence. */
  lemma {:induction false} SubseqMember<T>(a: seq<T>, b: seq<T>, i: int)
    requires Seqs.IsSubseq(a, b) && 0 <= i < |a|
    ensures exists k :: 0 <= k < |b| && b[k] == a[i]
    decreases |b|
  {
    if a[0] == b[0] {
      if i == 0 {
        assert b[0] == a[0];
      } else {
        SubseqMember(a[1..], b[1..], i - 1);
        var k :| 0 <= k < |b[1..]| && b[1..][k] == a[1..][i - 1];
        assert b[k + 1] == a[i];
      }
    } else {
      SubseqMember(a, b[1..], i);
      var k :| 0 <= k < |b[1..]| && b[1..][k] == a[i];
      assert b[k + 1] == a[i];
    }
  }

  /** Adding one unit of an id and removing one unit of it gives back the original cart. */
  lemma AddRemoveRoundTrip(lines: seq<CartLine>, id: int, stock: int -> Limit)
    requires CartInvariant(lines, stock)
    ensures RemovedOne(AddedLines(lines, id), id) == lines
  {
    if FindLine(lines, id).Some? {
      var i :| 0 <= i < |lines| && lines[i] == FindLine(lines, id).value;
      RoundTripFound(lines, id, i);
    } else {
      RoundTripNew(lines, id);
    }
  }

  /** Taking back a unit added to the line at index `i` restores the cart. */
  lemma RoundTripFound(lines: seq<CartLine>, id: int, i: int)
    requires forall a, b :: 0 <= a < b < |lines| ==> lines[a].id != lines[b].id
    requires 0 <= i < |lines| && lines[i].id == id && lines[i].qty >= 1
    ensures RemovedOne(Bump(lines, id, 1), id) == lines
  {
    var added := Bump(lines, id, 1);
    assert forall a :: 0 <= a < |added| ==> added[a].id == lines[a].id;
    FindLineUnique(added, id, i);
    assert RemovedOne(added, id) == Bump(added, id, -1);
    BumpUndone(lines, id, 1);
  }

  /** Bumping by `-delta` undoes bumping by `delta`. */
  lemma BumpUndone(lines: seq<CartLine>, id: int, delta: int)
    ensures Bump(Bump(lines, id, delta), id, -delta) == lines
  {
    var back := Bump(Bump(lines, id, delta), id, -delta);
    assert forall k :: 0 <= k < |lines| ==> back[k] == lines[k];
  }

  /** Taking back the line of one that adding a new id appended restores the cart. */
  lemma RoundTripNew(lines: seq<CartLine>, id: int)
    requires FindLine(lines, id).None?
    ensures RemovedOne(lines + [CartLine(id, 1)], id) == lines
  {
    FindLineAppend(lines, CartLine(id, 1), id);
    var keep := (l: CartLine) => l.id != id;
    Seqs.FilterAppend(lines, [CartLine(id, 1)], keep);
    Seqs.FilterAll(lines, keep);
    assert Seqs.Filter([CartLine(id, 1)], keep) == [];
  }

  /** Removing all of an id's units removes its line and keeps the other lines in order. */
  lemma RemoveAllSpec(lines: seq<CartLine>, id: int, stock: int -> Limit)
    requires CartInvariant(lines, stock)
    ensures forall other :: other != id ==> QtyIn(RemovedAll(lines, id), other) == QtyIn(lines, other)
    ensures QtyIn(RemovedAll(lines, id), id) == 0
    ensures Seqs.IsSubseq(RemovedAll(lines, id), lines)
  {
    RemoveAllKeepsInvariant(lines, id, stock);
    Seqs.FilterIsSubseq(lines, (l: CartLine) => l.id != id);
    forall other | other != id ensures QtyIn(RemovedAll(lines, id), other) == QtyIn(lines, other) {
      RemovedAllFind(lines, id, other);
    }
  }

  lemma {:induction false} RemovedAllFind(lines: seq<CartLine>, id: int, other: int)
    requires other != id
    ensures FindLine(RemovedAll(lines, id), other) == FindLine(lines, other)
  {
    if lines != [] {
      var keep := (l: CartLine) => l.id != id;
      var rest := RemovedAll(lines[1..], id);
      RemovedAllFind(lines[1..], id, other);
      if keep(lines[0]) {
        var r := [lines[0]] + rest;
        assert RemovedAll(lines, id) == r;
        assert r[0] == lines[0] && r[1..] == rest;
      } else {
        assert RemovedAll(lines, id) == rest;
      }
    }
  }

  lemma {:induction false} TotalAppend(a: seq<CartLine>, b: seq<CartLine>)
    requires forall i :: 0 <= i < |a| ==> IsSampleId(a[i].id)
    requires forall i :: 0 <= i < |b| ==> IsSampleId(b[i].id)
    ensures TotalOf(a + b) == TotalOf(a) + TotalOf(b)
  {
    if a == [] {
      assert a + b == b;
    } else {
      assert (a + b)[1..] == a[1..] + b;
      TotalAppend(a[1..], b);
    }
  }

  lemma Distributes(p: int, q: int, d: int)
    ensures p * (q + d) == p * q + p * d
  {
  }

  /** The total of a cart with a line in front. */
  lemma TotalCons(h: CartLine, t: seq<CartLine>)
    requires IsSampleId(h.id) && forall i :: 0 <= i < |t| ==> IsSampleId(t[i].id)
    ensures forall i :: 0 <= i < |[h] + t| ==> IsSampleId(([h] + t)[i].id)
    ensures TotalOf([h] + t) == PriceOf(h.id) * h.qty + TotalOf(t)
  {
    assert ([h] + t)[0] == h && ([h] + t)[1..] == t;
  }

  /** The lines after the first of a cart with distinct ids have distinct ids. */
  lemma TailDistinct(lines: seq<CartLine>)
    requires lines != [] && forall a, b :: 0 <= a < b < |lines| ==> lines[a].id != lines[b].id
    ensures forall a, b :: 0 <= a < b < |lines[1..]| ==> lines[1..][a].id != lines[1..][b].id
  {
    var rest := lines[1..];
    forall a, b | 0 <= a < b < |rest| ensures rest[a].id != rest[b].id {
      assert rest[a] == lines[a + 1] && rest[b] == lines[b + 1];
    }
  }

  /** In a cart with distinct ids the first line's id does not occur again. */
  lemma TailLacksHead(lines: seq<CartLine>)
    requires lines != [] && forall a, b :: 0 <= a < b < |lines| ==> lines[a].id != lines[b].id
    ensures FindLine(lines[1..], lines[0].id).None?
  {
    var rest := lines[1..];
    forall k | 0 <= k < |rest| ensures rest[k].id != lines[0].id {
      assert rest[k] == lines[k + 1];
    }
  }

  /** Bumping an id the cart does not hold changes nothing. */
  lemma BumpAbsent(lines: seq<CartLine>, id: int, delta: int)
    requires FindLine(lines, id).None?
    ensures Bump(lines, id, delta) == lines
  {
    var r := Bump(lines, id, delta);
    assert forall i :: 0 <= i < |r| ==> r[i] == lines[i];
  }

  /** Bumping the first line's id, unique in the cart, changes the total by its price times the delta. */
  lemma TotalBumpHead(lines: seq<CartLine>, delta: int)
    requires forall i :: 0 <= i < |lines| ==> IsSampleId(lines[i].id)
    requires lines != [] && forall a, b :: 0 <= a < b < |lines| ==> lines[a].id != lines[b].id
    ensures TotalOf(Bump(lines, lines[0].id, delta)) == TotalOf(lines) + PriceOf(lines[0].id) * delta
  {
    var h, rest := lines[0], lines[1..];
    TailLacksHead(lines);
    BumpAbsent(rest, h.id, delta);
    assert Bump(lines, h.id, delta) == [CartLine(h.id, h.qty + delta)] + rest;
    TotalCons(CartLine(h.id, h.qty + delta), rest);
    Distributes(PriceOf(h.id), h.qty, delta);
  }

  /** Bumping an id the first line does not carry changes the total as it changes the rest's. */
  lemma TotalBumpTail(lines: seq<CartLine>, id: int, delta: int)
    requires forall i :: 0 <= i < |lines| ==> IsSampleId(lines[i].id)
    requires lines != [] && lines[0].id != id
    ensures TotalOf(Bump(lines, id, delta)) - TotalOf(lines) == TotalOf(Bump(lines[1..], id, delta)) - TotalOf(lines[1..])
  {
    var h, rest := lines[0], lines[1..];
    var bumped := Bump(rest, id, delta);
    assert Bump(lines, id, delta) == [h] + bumped;
    assert forall i :: 0 <= i < |bumped| ==> bumped[i].id == rest[i].id;
    TotalCons(h, bumped);
  }

  /** Bumping a present id whose line is unique changes the total by the price times the delta. */
  lemma {:induction false} TotalBump(lines: seq<CartLine>, id: int, delta: int)
    requires forall i :: 0 <= i < |lines| ==> IsSampleId(lines[i].id)
    requires forall a, b :: 0 <= a < b < |lines| ==> lines[a].id != lines[b].id
    requires IsSampleId(id) && FindLine(lines, id).Some?
    ensures TotalOf(Bump(lines, id, delta)) == TotalOf(lines) + PriceOf(id) * delta
  {
    if lines[0].id == id {
      TotalBumpHead(lines, delta);
    } else {
      TailDistinct(lines);
      TotalBump(lines[1..], id, delta);
      TotalBumpTail(lines, id, delta);
    }
  }

  /** A permitted add raises the total by the product's price. */
  lemma TotalAfterAdd(lines: seq<CartLine>, id: int, stock: int -> Limit)
    requires CartInvariant(lines, stock) && IsSampleId(id)
    ensures TotalOf(AddedLines(lines, id)) == TotalOf(lines) + PriceOf(id)
  {
    if FindLine(lines, id).Some? {
      TotalBump(lines, id, 1);
    } else {
      TotalAppend(lines, [CartLine(id, 1)]);
    }
  }

  /** The register's cart state. */
  class Cart {
    var lines: seq<CartLine>

    predicate Valid()
      reads this
    {
      CartInvariant(lines, StockFor)
    }

    constructor ()
      ensures lines == [] && Valid()
    {
      lines := [];
    }

    /** `qtyFor`. */
    function QtyFor(id: int): int
      reads this
    {
      QtyIn(lines, id)
    }

    /** `total`. */
    function Total(): int
      reads this
      requires Valid()
    {
      TotalOf(lines)
    }

    /** `addToCart`: refused at the cap; otherwise one more unit of the id. */
    method AddToCart(id: int)
      requires Valid() && IsSampleId(id)
      modifies this
      ensures Valid()
      ensures lines == if CanAdd(old(lines), id, StockFor(id)) then AddedLines(old(lines), id) else old(lines)
    {
      var stock := StockFor(id);
      var current := QtyIn(lines, id);
      if stock.Finite? && current >= stock.n {
        return;
      }
      AddKeepsInvariant(lines, id, StockFor);
      lines := AddedLines(lines, id);
    }

    /** `removeFromCart`. */
    method RemoveFromCart(id: int)
      requires Valid()
      modifies this
      ensures Valid()
      ensures lines == RemovedOne(old(lines), id)
    {
      RemoveOneKeepsInvariant(lines, id, StockFor);
      lines := RemovedOne(lines, id);
    }

    /** `removeAllFromCart`. */
    method RemoveAllFromCart(id: int)
      requires Valid()
      modifies this
      ensures Valid()
      ensures lines == RemovedAll(old(lines), id)
    {
      RemoveAllKeepsInvariant(lines, id, StockFor);
      lines := RemovedAll(lines, id);
    }
  }
}
