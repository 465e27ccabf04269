/** The earlier draft of the Open/Closed example (SOLID/OpenClosedPrinciple.cs).
    Unlike the finished version it joins the specification interface and the
    `&` operator into one hierarchy, so the combinator can drive `BetterFilter`,
    and it adds `CriteriaExtensions.And`. `SizeSpecification` is used there but
    defined nowhere; it is assumed here to mirror `ColorSpecification`. */
module OpenClosedDraft {
  import opened Wrappers
  import opened Subsequences

  datatype Color = Red | Green | Blue

  datatype Size = Small | Medium | Large | Yuge

  /** `Product`: three public fields; `Name` is a C# string, so it may be null. */
  datatype Product = Product(name: Option<string>, color: Color, size: Size)

  /** The `Product` constructor as the draft has it: its body holds only a
      comment, so every field keeps its C# default (a null name and the first
      member of each enumeration). */
  function NewProductAsWritten(name: string, color: Color, size: Size): (p: Product)
    ensures p.name == None && p.color == Red && p.size == Small
  {
    Product(None, Red, Small)
  }

  /** The constructor as evidently intended: it stores its three arguments. */
  function NewProduct(name: string, color: Color, size: Size): (p: Product)
    ensures p.name == Some(name) && p.color == color && p.size == size
  {
    Product(Some(name), color, size)
  }

  // ---------------------------------------------------------------------------
  // ProductFilter
  // ---------------------------------------------------------------------------

  /** `ProductFilter.FilterByColor` (the `yield` version). */
  function FilterByColor(products: seq<Product>, color: Color): (r: seq<Product>)
    ensures IsSubsequence(r, products)
    ensures forall p :: p in r <==> p in products && p.color == color
  {
    if products == [] then []
    else
      var rest := FilterByColor(products[1..], color);
      if products[0].color == color then [products[0]] + rest else rest
  }

  lemma {:induction false} FilterByColorAppend(products: seq<Product>, p: Product, color: Color)
    ensures FilterByColor(products + [p], color)
         == FilterByColor(products, color) + (if p.color == color then [p] else [])
  {
    if products == [] {
      assert [p][1..] == [];
    } else {
      var extended := products + [p];
      assert extended[0] == products[0];
      assert extended[1..] == products[1..] + [p];
      FilterByColorAppend(products[1..], p, color);
    }
  }

  /** `ProductFilter.FilterByColorList`: the list-building loop; same result as
      the `yield` version. */
  method FilterByColorList(products: seq<Product>, color: Color) returns (list: seq<Product>)
    ensures list == FilterByColor(products, color)
  {
    list := [];
    for i := 0 to |products|
      invariant list == FilterByColor(products[..i], color)
    {
      var p := products[i];
      FilterByColorAppend(products[..i], p, color);
      assert products[..i + 1] == products[..i] + [p];
      if p.color == color {
        list := list + [p];
      }
    }
    assert products[..|products|] == products;
  }

  /** `ProductFilter.FilterBySize`. */
  function FilterBySize(products: seq<Product>, size: Size): (r: seq<Product>)
    ensures IsSubsequence(r, products)
    ensures forall p :: p in r <==> p in products && p.size == size
  {
    if products == [] then []
    else
      var rest := FilterBySize(products[1..], size);
      if products[0].size == size then [products[0]] + rest else rest
  }

  /** `ProductFilter.FilterBySizeAndColor`. */
  function FilterBySizeAndColor(products: seq<Product>, size: Size, color: Color): (r: seq<Product>)
    ensures IsSubsequence(r, products)
    ensures forall p :: p in r <==> p in products && p.size == size && p.color == color
  {
    if products == [] then []
    else
      var rest := FilterBySizeAndColor(products[1..], size, color);
      if products[0].size == size && products[0].color == color then [products[0]] + rest else rest
  }

  // ---------------------------------------------------------------------------
  // Specifications and BetterFilter
  // ---------------------------------------------------------------------------

  /** The specifications over products that the draft uses. `SizeSpecification`
      is not defined in the draft: it is assumed to test the size as
      `ColorSpecification` tests the colour. */
  datatype Specification =
    | ColorSpecification(color: Color)
    | SizeSpecification(size: Size)
    | AndSpecification(first: Specification, second: Specification)
  {
    /** The colours the specification names. */
    function Colors(): set<Color> {
      match this
      case ColorSpecification(color) => {color}
      case SizeSpecification(_) => {}
      case AndSpecification(first, second) => first.Colors() + second.Colors()
    }

    /** The sizes the specification names. */
    function Sizes(): set<Size> {
      match this
      case ColorSpecification(_) => {}
      case SizeSpecification(size) => {size}
      case AndSpecification(first, second) => first.Sizes() + second.Sizes()
    }

    predicate IsSatisfied(p: Product) {
      match this
      case ColorSpecification(color) => p.color == color
      case SizeSpecification(size) => p.size == size
      case AndSpecification(first, second) => first.IsSatisfied(p) && second.IsSatisfied(p)
    }
  }

  /** A product satisfies a specification exactly when it has every colour
      and every size the specification names. */
  lemma {:induction false} SatisfiedByNamedCriteria(spec: Specification, p: Product)
    ensures spec.IsSatisfied(p) <==>
              (forall c :: c in spec.Colors() ==> p.color == c) && (forall s :: s in spec.Sizes() ==> p.size == s)
  {
    match spec
    case ColorSpecification(color) =>
      assert color in spec.Colors();
    case SizeSpecification(size) =>
      assert size in spec.Sizes();
    case AndSpecification(first, second) =>
      SatisfiedByNamedCriteria(first, p);
      SatisfiedByNamedCriteria(second, p);
      if !first.IsSatisfied(p) {
        MissedCriterion(first, spec, p);
      } else if !second.IsSatisfied(p) {
        MissedCriterion(second, spec, p);
      } else {
        forall c | c in spec.Colors() ensures p.color == c {
          assert c in first.Colors() || c in second.Colors();
        }
        forall s | s in spec.Sizes() ensures p.size == s {
          assert s in first.Sizes() || s in second.Sizes();
        }
      }
  }

  /** A criterion a part of a specification names, and the product misses,
      is one the whole specification names. */
  lemma MissedCriterion(part: Specification, spec: Specification, p: Product)
    requires part.Colors() <= spec.Colors() && part.Sizes() <= spec.Sizes()
    requires !((forall c :: c in part.Colors() ==> p.color == c) && (forall s :: s in part.Sizes() ==> p.size == s))
    ensures !((forall c :: c in spec.Colors() ==> p.color == c) && (forall s :: s in spec.Sizes() ==> p.size == s))
  {
  }

  /** `ISpecification<T>.operator &`. */
  function Conjoin(first: Specification, second: Specification): (r: Specification)
    ensures forall p :: r.IsSatisfied(p) <==> first.IsSatisfied(p) && second.IsSatisfied(p)
    ensures r.AndSpecification? && r.first == first && r.second == second
  {
    AndSpecification(first, second)
  }

  /** `CriteriaExtensions.And`: a colour and a size make the conjunction of
      their two specifications. */
  function And(color: Color, size: Size): (r: Specification)
    ensures forall p :: r.IsSatisfied(p) <==> p.color == color && p.size == size
    ensures r == Conjoin(ColorSpecification(color), SizeSpecification(size))
  {
    AndSpecification(ColorSpecification(color), SizeSpecification(size))
  }

  /** `BetterFilter.Filter`: the order-preserving selection of the items that
      satisfy the specification. */
  function Filter(items: seq<Product>, spec: Specification): (r: seq<Product>)
    ensures |r| <= |items|
    ensures IsSubsequence(r, items)
    ensures forall p :: p in r <==> p in items && spec.IsSatisfied(p)
  {
    if items == [] then []
    else
      var rest := Filter(items[1..], spec);
      if spec.IsSatisfied(items[0]) then [items[0]] + rest else rest
  }

  /** Every satisfying item is kept as often as it occurs, every other dropped. */
  lemma {:induction false} FilterCounts(items: seq<Product>, spec: Specification)
    ensures forall p :: multiset(Filter(items, spec))[p] == if spec.IsSatisfied(p) then multiset(items)[p] else 0
  {
    if items != [] {
      FilterCounts(items[1..], spec);
      assert items == [items[0]] + items[1..];
    }
  }

  /** Filtering by a conjunction is filtering by one part and then the other. */
  lemma {:induction false} FilterConjunction(items: seq<Product>, first: Specification, second: Specification)
    ensures Filter(items, Conjoin(first, second)) == Filter(Filter(items, first), second)
  {
    if items != [] {
      FilterConjunction(items[1..], first, second);
    }
  }

  /** The colour specification reproduces the hand-written colour filter. */
  lemma {:induction false} FilterByColorSpecification(items: seq<Product>, color: Color)
    ensures Filter(items, ColorSpecification(color)) == FilterByColor(items, color)
  {
    if items != [] {
      FilterByColorSpecification(items[1..], color);
    }
  }

  /** The size specification reproduces the hand-written size filter. */
  lemma {:induction false} FilterBySizeSpecification(items: seq<Product>, size: Size)
    ensures Filter(items, SizeSpecification(size)) == FilterBySize(items, size)
  {
    if items != [] {
      FilterBySizeSpecification(items[1..], size);
    }
  }

  /** `Color.And(size)` selects what `FilterBySizeAndColor` selects. */
  lemma {:induction false} FilterByCriteria(items: seq<Product>, color: Color, size: Size)
    ensures Filter(items, And(color, size)) == FilterBySizeAndColor(items, size, color)
  {
    if items != [] {
      FilterByCriteria(items[1..], color, size);
    }
  }

  /** The demonstration with the intended constructor: green and large over
      Apple, Tree and House selects only Tree. */
  lemma LargeGreenDemo()
    ensures var apple := NewProduct("Apple", Green, Small);
            var tree := NewProduct("Tree", Green, Large);
            var house := NewProduct("House", Blue, Large);
            Filter([apple, tree, house], AndSpecification(ColorSpecification(Green), SizeSpecification(Large)))
            == [tree]
  {
    var apple := NewProduct("Apple", Green, Small);
    var tree := NewProduct("Tree", Green, Large);
    var house := NewProduct("House", Blue, Large);
    var spec := AndSpecification(ColorSpecification(Green), SizeSpecification(Large));
    assert [apple, tree, house][1..] == [tree, house];
    assert [tree, house][1..] == [house];
    assert Filter([house], spec) == [];
    assert Filter([tree, house], spec) == [tree];
  }

  /** The same demonstration with the constructor as written: every product is
      red and small, so nothing is selected. */
  lemma AsWrittenDemoSelectsNothing()
    ensures var apple := NewProductAsWritten("Apple", Green, Small);
            var tree := NewProductAsWritten("Tree", Green, Large);
            var house := NewProductAsWritten("House", Blue, Large);
            Filter([apple, tree, house], AndSpecification(ColorSpecification(Green), SizeSpecification(Large)))
            == []
  {
    var blank := NewProductAsWritten("", Red, Small);
    var spec := AndSpecification(ColorSpecification(Green), SizeSpecification(Large));
    assert [blank, blank, blank][1..] == [blank, blank];
    assert [blank, blank][1..] == [blank];
    assert Filter([blank], spec) == [];
    assert Filter([blank, blank], spec) == [];
  }
}
