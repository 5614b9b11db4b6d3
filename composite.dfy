/** The Composite pattern as a pricing tree: a Box holds, in insertion
    order, products (immutable leaves with a name and a price) and other
    boxes, held by reference. A box's price is recomputed from its
    children on every call, so it always reflects the current contents,
    including boxes that were changed after being added. */
module CompositePattern {
  import Decimal
  import Wrappers

  /** An IProduct: either an immutable Product or a Box held by reference. */
  datatype Item = Product(name: string, price: real) | Nested(box: Box)

  /** The value a pricing tree denotes at one moment: the reference
      definition of price, independent of the heap. */
  datatype Tree = Leaf(name: string, price: real) | Container(children: seq<Tree>)
  {
    function Price(): real
      decreases this, 1
    {
      match this
      case Leaf(_, p) => p
      case Container(cs) => SumPrices(cs)
    }

    /** Every leaf carries a price of at least zero. */
    predicate NonNegative()
      decreases this, 1
    {
      match this
      case Leaf(_, p) => p >= 0.0
      case Container(cs) => AllNonNegative(cs)
    }
  }

  /** Sum of the trees' prices, first child plus the rest. */
  function SumPrices(ts: seq<Tree>): real
    decreases ts, 0
  {
    if ts == [] then 0.0 else ts[0].Price() + SumPrices(ts[1..])
  }

  predicate AllNonNegative(ts: seq<Tree>)
    decreases ts, 0
  {
    ts == [] || (ts[0].NonNegative() && AllNonNegative(ts[1..]))
  }

  /** Adding one tree at the end adds exactly its price. */
  lemma {:induction false} SumPricesAppend(ts: seq<Tree>, t: Tree)
    ensures SumPrices(ts + [t]) == SumPrices(ts) + t.Price()
  {
    if ts != [] {
      assert (ts + [t])[1..] == ts[1..] + [t];
      SumPricesAppend(ts[1..], t);
    }
  }

  /** Taking the child at position k out of the sum. */
  lemma {:induction false} SumPricesRemove(ts: seq<Tree>, k: nat)
    requires k < |ts|
    ensures SumPrices(ts) == ts[k].Price() + SumPrices(ts[..k] + ts[k + 1..])
  {
    if k > 0 {
      SumPricesRemove(ts[1..], k - 1);
      assert ts[1..][..k - 1] + ts[1..][k..] == (ts[..k] + ts[k + 1..])[1..];
    } else {
      assert ts[..k] + ts[k + 1..] == ts[1..];
    }
  }

  /** Taking the element at position k out of a sequence takes one copy
      of it out of the multiset. */
  lemma MultisetRemove<T>(us: seq<T>, k: nat)
    requires k < |us|
    ensures multiset(us[..k] + us[k + 1..]) == multiset(us) - multiset{us[k]}
  {
    assert us == us[..k] + [us[k]] + us[k + 1..];
  }

  /** Two sequences with the same elements: the first element of one occurs
      at some position k of the other, and what remains of both once those
      are removed still has the same elements. */
  lemma MatchFirst<T>(ts: seq<T>, us: seq<T>) returns (k: nat)
    requires ts != [] && multiset(ts) == multiset(us)
    ensures k < |us| && us[k] == ts[0]
    ensures multiset(ts[1..]) == multiset(us[..k] + us[k + 1..])
  {
    k := IndexOf(us, ts[0]);
    MultisetRemove(us, k);
    MultisetTail(ts);
  }

  lemma MultisetTail<T>(ts: seq<T>)
    requires ts != []
    ensures multiset(ts[1..]) == multiset(ts) - multiset{ts[0]}
  {
    assert ts == [ts[0]] + ts[1..];
  }

  /** A position at which an element of the multiset occurs. */
  lemma IndexOf<T>(us: seq<T>, x: T) returns (k: nat)
    requires x in multiset(us)
    ensures k < |us| && us[k] == x
  {
    assert x in us;
    k :| k < |us| && us[k] == x;
  }

  /** Matching the first child of ts with the same child at position k
      of us reduces equal sums to equal sums of the remaining children. */
  lemma SumPricesMatchFirst(ts: seq<Tree>, us: seq<Tree>, k: nat)
    requires ts != [] && k < |us| && us[k] == ts[0]
    requires SumPrices(ts[1..]) == SumPrices(us[..k] + us[k + 1..])
    ensures SumPrices(ts) == SumPrices(us)
  {
    SumPricesRemove(us, k);
  }

  /** The order in which children were added does not change the price. */
  lemma {:induction false} SumPricesPermutation(ts: seq<Tree>, us: seq<Tree>)
    requires multiset(ts) == multiset(us)
    ensures SumPrices(ts) == SumPrices(us)
    decreases |ts|
  {
    if ts != [] {
      var k := MatchFirst(ts, us);
      SumPricesPermutation(ts[1..], us[..k] + us[k + 1..]);
      SumPricesMatchFirst(ts, us, k);
    } else {
      assert us == [];
    }
  }

  /** A tree whose leaves are all priced at zero or more is priced at zero or more. */
  lemma {:induction false} NonNegativePrice(t: Tree)
    requires t.NonNegative()
    ensures t.Price() >= 0.0
    decreases t, 1
  {
    match t
    case Leaf(_, _) =>
    case Container(cs) => NonNegativeSum(cs);
  }

  lemma {:induction false} NonNegativeSum(ts: seq<Tree>)
    requires AllNonNegative(ts)
    ensures SumPrices(ts) >= 0.0
    decreases ts, 0
  {
    if ts != [] {
      NonNegativePrice(ts[0]);
      NonNegativeSum(ts[1..]);
    }
  }

  /** The Composite: a box of products and boxes. */
  class Box {
    var products: seq<Item>
    /** This box and every box reachable from it. */
    ghost var Repr: set<object>

    /** The containment relation below this box is acyclic: no nested box
        reaches back to this one, directly or transitively. */
    ghost predicate Valid()
      reads this, Repr
      ensures Valid() ==> this in Repr
      decreases Repr
    {
      this in Repr &&
      forall i :: 0 <= i < |products| && products[i].Nested? ==>
        products[i].box in Repr && products[i].box.Repr <= Repr &&
        this !in products[i].box.Repr && products[i].box.Valid()
    }

    /** The trees of the first k children, in insertion order. */
    ghost function TreePrefix(k: nat): (ts: seq<Tree>)
      requires Valid() && k <= |products|
      reads Repr
      ensures |ts| == k
      decreases Repr, 0, k
    {
      if k == 0 then []
      else
        TreePrefix(k - 1) +
        [match products[k - 1]
         case Product(n, p) => Leaf(n, p)
         case Nested(b) => b.Tree()]
    }

    /** The value this box denotes now. */
    ghost function Tree(): (t: Tree)
      requires Valid()
      reads Repr
      ensures t.Container? && |t.children| == |products|
      decreases Repr, 1
    {
      Container(TreePrefix(|products|))
    }

    /** An empty box; the products list starts empty from its field initializer. */
    constructor ()
      ensures Valid() && fresh(Repr) && Repr == {this}
      ensures products == [] && Tree() == Container([])
    {
      products := [];
      Repr := {this};
    }

    /** The misspelt ordinary method `contructor`: empties the list. */
    method Contructor()
      modifies this
      ensures Valid() && Repr == {this}
      ensures products == [] && Tree() == Container([])
    {
      products := [];
      Repr := {this};
    }

    /** "A box with N products", where N counts direct children only. */
    function Name(): string
      reads this
    {
      "A box with " + Decimal.NatToString(|products|) + " products"
    }

    /** The `reduce` over the first k children: starts at 0 and adds each
        child's price from left to right. */
    function PrefixPrice(k: nat): (r: real)
      requires Valid() && k <= |products|
      reads Repr
      ensures r == SumPrices(TreePrefix(k))
      decreases Repr, 0, k
    {
      if k == 0 then 0.0
      else
        var p := ItemPrice(products[k - 1]);
        SumPricesAppend(TreePrefix(k - 1), TreePrefix(k)[k - 1]);
        assert TreePrefix(k) == TreePrefix(k - 1) + [TreePrefix(k)[k - 1]];
        PrefixPrice(k - 1) + p
    }

    /** The total price: the sum of the children's prices, recursing into
        nested boxes; an empty box is priced at 0. */
    function Price(): (r: real)
      requires Valid()
      reads Repr
      ensures r == Tree().Price()
      ensures products == [] ==> r == 0.0
      decreases Repr, 1
    {
      PrefixPrice(|products|)
    }

    /** Appends p after the existing children. Adding a box requires that
        it does not contain this one, which keeps the tree acyclic. */
    method Add(p: Item)
      requires Valid()
      requires p.Nested? ==> p.box.Valid() && this !in p.box.Repr
      modifies this
      ensures Valid()
      ensures products == old(products) + [p]
      ensures Repr == old(Repr) + (if p.Nested? then p.box.Repr else {})
      ensures Tree() == Container(old(Tree()).children + [ItemTree(p)])
      ensures Price() == old(Price() + ItemPrice(p))
    {
      products := products + [p];
      if p.Nested? {
        Repr := Repr + p.box.Repr;
      }
      assert Valid();
      AppendedLast(p);
    }

    /** Once p has been appended to this box and nothing else has changed,
        the tree gains p's subtree at the end and the price rises by p's
        price. */
    twostate lemma AppendedLast(p: Item)
      requires old(Valid()) && Valid()
      requires products == old(products) + [p]
      requires p.Nested? ==> old(p.box.Valid()) && p.box.Valid() && this !in p.box.Repr
      requires p.Nested? ==> forall o :: o in old(p.box.Repr) ==> unchanged(o)
      requires forall o :: o in old(Repr) && o != this ==> unchanged(o)
      ensures Tree() == Container(old(Tree()).children + [ItemTree(p)])
      ensures Price() == old(Price() + ItemPrice(p))
    {
      PrefixUnchanged(|old(products)|);
      assert TreePrefix(|products|) == TreePrefix(|old(products)|) + [ItemTree(p)];
      assert ItemTree(p) == old(ItemTree(p));
      SumPricesAppend(old(Tree()).children, ItemTree(p));
    }

    /** Changing only the box itself, while keeping its first k children,
        keeps the trees of those children. */
    twostate lemma {:induction false} PrefixUnchanged(k: nat)
      requires old(Valid()) && Valid()
      requires k <= |old(products)| && k <= |products|
      requires old(products)[..k] == products[..k]
      requires forall o :: o in old(Repr) && o != this ==> unchanged(o)
      ensures TreePrefix(k) == old(TreePrefix(k))
    {
      if k > 0 {
        assert old(products)[k - 1] == products[k - 1];
        PrefixUnchanged(k - 1);
      }
    }
  }

  /** The number written in a box's name is its number of direct children. */
  lemma NameEncodesCount(b: Box)
    ensures var r := b.Name();
      |r| > 20 && r[..11] == "A box with " && r[|r| - 9..] == " products" &&
      Decimal.ParseNat(r[11..|r| - 9]) == Wrappers.Some(|b.products|)
  {
    var r := b.Name();
    assert r[11..|r| - 9] == Decimal.NatToString(|b.products|);
    Decimal.ParseNatToString(|b.products|);
  }

  /** Two boxes have the same name exactly when they have the same number
      of direct children; a nested box counts as one child. */
  lemma NameCountsDirectChildren(a: Box, b: Box)
    ensures a.Name() == b.Name() <==> |a.products| == |b.products|
  {
    Decimal.NatToStringInjective(|a.products|, |b.products|);
    if a.Name() == b.Name() {
      var n := a.Name();
      assert n[11..|n| - 9] == Decimal.NatToString(|a.products|);
      assert n[11..|n| - 9] == Decimal.NatToString(|b.products|);
    }
  }

  /** A fresh box holding two products, added in order. */
  method BoxOfTwo(a: string, pa: real, b: string, pb: real) returns (box: Box)
    ensures fresh(box.Repr) && box.Valid() && box.Repr == {box}
    ensures box.products == [Product(a, pa), Product(b, pb)]
    ensures box.Price() == pa + pb
  {
    box := new Box();
    box.Add(Product(a, pa));
    box.Add(Product(b, pb));
    assert box.products == [] + [Product(a, pa)] + [Product(b, pb)];
  }

  /** The delivery built by the script: two products in box1, two TVs in
      box2, then box2 added to box1 as a single child. */
  method DeliveryExample() returns (total: real, name: string)
    ensures total == 2105.5
    ensures name == "A box with 3 products"
  {
    var box1 := BoxOfTwo("Bubble gum", 0.5, "Samsung Note 20", 1005.0);
    var box2 := BoxOfTwo("Samsung TV 20in", 300.0, "Samsung TV 50in", 800.0);
    box1.Add(Nested(box2));
    total := box1.Price();
    assert |box1.products| == 3;
    name := box1.Name();
    ScriptNames();
  }

  /** When box2 is added, the log line names it "A box with 2 products". */
  method NestedNameExample() returns (nestedName: string)
    ensures nestedName == "A box with 2 products"
  {
    var box2 := BoxOfTwo("Samsung TV 20in", 300.0, "Samsung TV 50in", 800.0);
    nestedName := ItemName(Nested(box2));
    ScriptNames();
  }

  /** The two box descriptions the script prints, spelled out. */
  lemma ScriptNames()
    ensures "A box with " + Decimal.NatToString(2) + " products" == "A box with 2 products"
    ensures "A box with " + Decimal.NatToString(3) + " products" == "A box with 3 products"
  {
    assert Decimal.NatToString(2) == "2";
    assert Decimal.NatToString(3) == "3";
  }

  /** A box is held by reference: adding to box2 after it was put in box1
      raises box1's price by the same amount, with no stale cached total. */
  method SharedChildExample(extra: real) returns (before: real, after: real)
    ensures after == before + extra
  {
    var box1 := new Box();
    var box2 := new Box();
    box1.Add(Nested(box2));
    before := box1.Price();
    assert before == box2.Price() by {
      assert box1.PrefixPrice(1) == box1.PrefixPrice(0) + ItemPrice(Nested(box2));
    }
    box2.Add(Product("Extra", extra));
    assert box1.Valid();
    after := box1.Price();
    assert after == box2.Price() by {
      assert box1.PrefixPrice(1) == box1.PrefixPrice(0) + ItemPrice(Nested(box2));
    }
  }

  /** IProduct.getPrice: a product's own price, or the nested box's total. */
  function ItemPrice(it: Item): (r: real)
    requires it.Nested? ==> it.box.Valid()
    reads if it.Nested? then it.box.Repr else {}
    ensures r == ItemTree(it).Price()
    ensures it.Product? ==> r == it.price
    decreases if it.Nested? then it.box.Repr else {}, 2
  {
    match it
    case Product(_, p) => p
    case Nested(b) => b.Price()
  }

  /** IProduct.getName: a product's own name, or the nested box's description. */
  function ItemName(it: Item): (r: string)
    reads if it.Nested? then {it.box} else {}
    ensures it.Product? ==> r == it.name
    ensures it.Nested? ==>
      |r| > 20 && r[..11] == "A box with " && r[|r| - 9..] == " products" &&
      Decimal.ParseNat(r[11..|r| - 9]) == Wrappers.Some(|it.box.products|)
  {
    match it
    case Product(n, _) => n
    case Nested(b) => NameEncodesCount(b); b.Name()
  }

  /** The tree an item denotes: a product's own name and price, or the
      nested box's current tree. */
  ghost function ItemTree(it: Item): Tree
    requires it.Nested? ==> it.box.Valid()
    reads if it.Nested? then it.box.Repr else {}
  {
    match it
    case Product(n, p) => Leaf(n, p)
    case Nested(b) => b.Tree()
  }

}
