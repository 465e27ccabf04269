/** The product filters and specifications of the Open/Closed example
    (DesignPatterns/SOLID/OpenClosedPrinciple.cs): four hand-written filters on
    `ProductFilter_oc`, the specification-driven `BetterFilter`, the colour
    specification and the `&` combinator over `ISpecification1`. */
module OpenClosed {
  import opened Subsequences

  datatype Color = Red | Green | Blue

  datatype Size = Small | Medium | Large | Yuge

  /** `Product_oc`. Its constructor stores name, colour and size as given, which
      is exactly what this datatype's constructor does. */
  datatype Product = Product(name: string, color: Color, size: Size)

  // ---------------------------------------------------------------------------
  // ProductFilter_oc
  // ---------------------------------------------------------------------------

  /** `ProductFilter_oc.FilterByColor`, the `yield` version: the products of the
      given colour, in input order, each as often as it occurs in the input. */
  function FilterByColor(products: seq<Product>, color: Color): (r: seq<Product>)
    ensures IsSubsequence(r, products)
    ensures forall p :: p in r <==> p in products && p.color == color
  {
    if products == [] then []
    else
      var rest := FilterByColor(products[1..], color);
      if products[0].color == color then [products[0]] + rest else rest
  }

  /** Filtering a sequence extended at the end filters the extension on its own;
      this is what lets a left-to-right loop build the same sequence. */
  lemma {:induction false} FilterByColorAppend(products: seq<Product>, p: Product, color: Color)
    ensures FilterByColor(products + [p], color)
         == FilterByColor(products, color) + (if p.color == color then [p] else [])
  {
    if products == [] {
      assert [p][1..] == [];
    } else {
      var extended := products + [p];
      assert extended[0] == products[0];
      assert extended[1..] == products[1..] + [p];
      FilterByColorAppend(products[1..], p, color);
    }
  }

  /** `ProductFilter_oc.FilterByColorList`: the loop that adds each product of
      the given colour to a fresh list. It returns the same sequence as the
      `yield` version for every input. */
  method FilterByColorList(products: seq<Product>, color: Color) returns (list: seq<Product>)
    ensures list == FilterByColor(products, color)
  {
    list := [];
    for i := 0 to |products|
      invariant list == FilterByColor(products[..i], color)
    {
      var p := products[i];
      FilterByColorAppend(products[..i], p, color);
      assert products[..i + 1] == products[..i] + [p];
      if p.color == color {
        list := list + [p];
      }
    }
    assert products[..|products|] == products;
  }

  /** `ProductFilter_oc.FilterBySize`: the products of the given size, in order. */
  function FilterBySize(products: seq<Product>, size: Size): (r: seq<Product>)
    ensures IsSubsequence(r, products)
    ensures forall p :: p in r <==> p in products && p.size == size
  {
    if products == [] then []
    else
      var rest := FilterBySize(products[1..], size);
      if products[0].size == size then [products[0]] + rest else rest
  }

  /** `ProductFilter_oc.FilterBySizeAndColor`: the products matching both the
      size and the colour, in order. */
  function FilterBySizeAndColor(products: seq<Product>, size: Size, color: Color): (r: seq<Product>)
    ensures IsSubsequence(r, products)
    ensures forall p :: p in r <==> p in products && p.size == size && p.color == color
  {
    if products == [] then []
    else
      var rest := FilterBySizeAndColor(products[1..], size, color);
      if products[0].size == size && products[0].color == color then [products[0]] + rest else rest
  }

  /** The hand-written size filter is `BetterFilter` with a size test. */
  lemma {:induction false} FilterBySizeIsFilter(products: seq<Product>, size: Size)
    ensures FilterBySize(products, size) == Filter(products, (p: Product) => p.size == size)
  {
    if products != [] {
      FilterBySizeIsFilter(products[1..], size);
    }
  }

  /** The combined filter is the size filter applied to the colour filter's output. */
  lemma {:induction false} SizeAndColorIsComposition(products: seq<Product>, size: Size, color: Color)
    ensures FilterBySizeAndColor(products, size, color) == FilterBySize(FilterByColor(products, color), size)
  {
    if products != [] {
      SizeAndColorIsComposition(products[1..], size, color);
    }
  }

  // ---------------------------------------------------------------------------
  // BetterFilter over ISpecification<Product_oc>
  // ---------------------------------------------------------------------------

  /** `BetterFilter.Filter`. An `ISpecification<Product_oc>` is anything with an
      `IsSatisfied` test, so it is passed here as that test. The result is the
      order-preserving selection of exactly the satisfying items. */
  function Filter(items: seq<Product>, spec: Product -> bool): (r: seq<Product>)
    ensures |r| <= |items|
    ensures IsSubsequence(r, items)
    ensures forall p :: p in r <==> p in items && spec(p)
  {
    if items == [] then []
    else
      var rest := Filter(items[1..], spec);
      if spec(items[0]) then [items[0]] + rest else rest
  }

  /** The selection keeps every satisfying item as often as the input has it
      and drops every other item: with the order kept, this determines `Filter`. */
  lemma {:induction false} FilterCounts(items: seq<Product>, spec: Product -> bool)
    ensures forall p :: multiset(Filter(items, spec))[p] == if spec(p) then multiset(items)[p] else 0
  {
    if items != [] {
      FilterCounts(items[1..], spec);
      assert items == [items[0]] + items[1..];
    }
  }

  /** Filtering the output again with the same specification changes nothing. */
  lemma {:induction false} FilterIdempotent(items: seq<Product>, spec: Product -> bool)
    ensures Filter(Filter(items, spec), spec) == Filter(items, spec)
  {
    if items != [] {
      FilterIdempotent(items[1..], spec);
    }
  }

  /** `ColorSpecification`: satisfied by the products of its colour. */
  datatype ColorSpecification = ColorSpecification(color: Color) {
    predicate IsSatisfied(p: Product)
      ensures IsSatisfied(p) <==> FilterByColor([p], color) == [p]
    {
      p.color == color
    }
  }

  /** The specification-driven filter with a colour specification is the
      hand-written colour filter. */
  lemma {:induction false} FilterByColorSpecification(items: seq<Product>, color: Color)
    ensures Filter(items, ColorSpecification(color).IsSatisfied) == FilterByColor(items, color)
  {
    if items != [] {
      FilterByColorSpecification(items[1..], color);
    }
  }

  /** The products of `Test.TestMain`: filtering Apple (green, small), Tree
      (green, large) and House (blue, large) by green gives Apple then Tree. */
  lemma GreenProducts()
    ensures var apple := Product("Apple", Green, Small);
            var tree := Product("Tree", Green, Large);
            var house := Product("House", Blue, Large);
            && FilterByColor([apple, tree, house], Green) == [apple, tree]
            && Filter([apple, tree, house], ColorSpecification(Green).IsSatisfied) == [apple, tree]
  {
    var apple := Product("Apple", Green, Small);
    var tree := Product("Tree", Green, Large);
    var house := Product("House", Blue, Large);
    FilterByColorSpecification([apple, tree, house], Green);
    assert [apple, tree, house][1..] == [tree, house];
    assert [tree, house][1..] == [house];
    assert FilterByColor([house], Green) == [];
    assert FilterByColor([tree, house], Green) == [tree];
  }

  // ---------------------------------------------------------------------------
  // ISpecification1<T> and AndSpecification<T>
  // ---------------------------------------------------------------------------

  /** The abstract class `ISpecification1<T>`: `AndSpecification` is the one
      subclass in the file; `Custom` stands for any other subclass, given by its
      `IsSatisfied` override. */
  datatype Specification1<!T> =
    | Custom(test: T -> bool)
    | AndSpecification(first: Specification1<T>, second: Specification1<T>)
  {
    /** The custom tests the specification is built from, left to right. */
    function Tests(): (r: seq<T -> bool>)
      ensures |r| >= 1
    {
      match this
      case Custom(test) => [test]
      case AndSpecification(first, second) => first.Tests() + second.Tests()
    }

    predicate IsSatisfied(t: T) {
      match this
      case Custom(test) => test(t)
      case AndSpecification(first, second) => first.IsSatisfied(t) && second.IsSatisfied(t)
    }
  }

  /** Every test the specification is built from holds for `t`. */
  ghost predicate AllTestsPass<T>(spec: Specification1<T>, t: T) {
    forall i :: 0 <= i < |spec.Tests()| ==> spec.Tests()[i](t)
  }

  /** A specification built with `&` is satisfied exactly when every test it
      is built from holds. */
  lemma SatisfiedByAllTests<T>(spec: Specification1<T>, t: T)
    ensures spec.IsSatisfied(t) <==> AllTestsPass(spec, t)
  {
    if spec.IsSatisfied(t) {
      AllTestsHold(spec, t);
    } else if AllTestsPass(spec, t) {
      SatisfiedWhenAllTestsHold(spec, t);
    }
  }

  /** A satisfied specification passes every test it is built from. */
  lemma {:induction false} AllTestsHold<T>(spec: Specification1<T>, t: T)
    requires spec.IsSatisfied(t)
    ensures AllTestsPass(spec, t)
  {
    match spec
    case Custom(test) =>
      assert spec.Tests() == [test];
    case AndSpecification(first, second) =>
      AllTestsHold(first, t);
      AllTestsHold(second, t);
      var n := |first.Tests()|;
      forall i | 0 <= i < |spec.Tests()| ensures spec.Tests()[i](t) {
        if i < n {
          assert spec.Tests()[i] == first.Tests()[i];
        } else {
          assert spec.Tests()[i] == second.Tests()[i - n];
        }
      }
  }

  /** A specification whose every test passes is satisfied. */
  lemma {:induction false} SatisfiedWhenAllTestsHold<T>(spec: Specification1<T>, t: T)
    requires AllTestsPass(spec, t)
    ensures spec.IsSatisfied(t)
  {
    match spec
    case Custom(test) =>
      assert spec.Tests()[0] == test;
    case AndSpecification(first, second) =>
      var n := |first.Tests()|;
      forall i | 0 <= i < |first.Tests()| ensures first.Tests()[i](t) {
        assert first.Tests()[i] == spec.Tests()[i];
      }
      forall i | 0 <= i < |second.Tests()| ensures second.Tests()[i](t) {
        assert second.Tests()[i] == spec.Tests()[i + n];
      }
      SatisfiedWhenAllTestsHold(first, t);
      SatisfiedWhenAllTestsHold(second, t);
  }

  /** `ISpecification1<T>.operator &`: builds the conjunction of its operands. */
  function Conjoin<T(!new)>(first: Specification1<T>, second: Specification1<T>): (r: Specification1<T>)
    ensures forall t :: r.IsSatisfied(t) <==> first.IsSatisfied(t) && second.IsSatisfied(t)
    ensures r.AndSpecification? && r.first == first && r.second == second
  {
    AndSpecification(first, second)
  }
}
