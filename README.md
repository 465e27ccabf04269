# Design-pattern examples, modelled in Dafny

The repository is a set of small C# teaching examples of object-oriented design
principles and patterns. This project models those examples and proves what
each one is meant to show:

- **Open/Closed Principle**: product filters, one per criterion, against a `BetterFilter` driven by
  a `ColorSpecification`; separately, the generic `ISpecification1<T>` whose `&` builds an
  `AndSpecification<T>` (`OpenClosed`). In that file the two are not connected: `BetterFilter` takes
  an `ISpecification<Product_oc>`, which `AndSpecification<T>` is not. The older draft of the same
  file uses one interface for both, so there `&` and `CriteriaExtensions.And` feed `BetterFilter`
  (`OpenClosedDraft`).
- **Single Responsibility Principle**: the invitation validators, the `Journal` with its shared
  static counter, and its `RemoveEntry` (`SingleResponsibility`).
- **Liskov Substitution Principle**: the ellipse/circle axis setters in both versions of the file
  (`Liskov`, `LiskovDraft`).
- **Decorator**: the `Available` decorator that limits how many orders of a dish are taken (`Decorator`).
- **Factory Method**: sandwiches (`FactoryMethod`), credit cards (`CreditCards`) and the air
  conditioner's factory table (`AirConditioning`).
- **Abstract Factory**: adult and kid cuisine (`AbstractFactory`).
- **Singleton**: lazy creation of `TheBell` (`Singleton`).

Each source file is one module. Value-like entities (products, specifications, dishes, factories
without state, air-conditioning units) are datatypes; a C# hierarchy of such classes is one
datatype with a constructor per subclass (`RecipeFactory`, `AirConditionerFactory`,
`Conditioner`, `Specification`). Objects whose fields the C# code assigns (journals, ellipses,
credit cards, the decorator, the singleton's static field, sandwiches and their ingredient
lists) are classes with `modifies` frames. A hierarchy of such classes is one Dafny class carrying
a tag naming the concrete class (`dynamicClass` for ellipses and sandwiches, `kind` for credit
cards and card factories); each overridden method dispatches on that tag. A C# static field is a
separate object shared by all instances (`JournalCounter`, `TheBellStatics`). Thrown exceptions
are modelled as `Result`/`Outcome` values, and a C# `null` string as `Option<string>`.

`SizeSpecification`, used by `SOLID/OpenClosedPrinciple.cs`, is not defined anywhere in the
repository. `OpenClosedDraft.Specification.SizeSpecification` assumes it mirrors
`ColorSpecification`: it accepts a product exactly when the product's size equals its own.

## Model

| member | source | states |
|---|---|---|
| OpenClosed.FilterByColor | DesignPatterns/SOLID/OpenClosedPrinciple.cs:147-152 | the result keeps the input order (subsequence) and holds exactly the input products of that colour |
| OpenClosed.FilterByColorList | DesignPatterns/SOLID/OpenClosedPrinciple.cs:138-145 | the list-building loop returns the same products, in the same order, as the yield-based filter |
| OpenClosed.FilterBySize | DesignPatterns/SOLID/OpenClosedPrinciple.cs:153-158 | subsequence of the input holding exactly the products of that size |
| OpenClosed.FilterBySizeAndColor | DesignPatterns/SOLID/OpenClosedPrinciple.cs:159-164 | subsequence of the input holding exactly the products of that size and that colour |
| OpenClosed.FilterBySizeIsFilter | DesignPatterns/SOLID/OpenClosedPrinciple.cs:153-158 | the per-criterion size filter is `BetterFilter.Filter` with a size test |
| OpenClosed.SizeAndColorIsComposition | DesignPatterns/SOLID/OpenClosedPrinciple.cs:153-164 | filtering on size and colour at once equals filtering by colour and then by size |
| OpenClosed.Filter | DesignPatterns/SOLID/OpenClosedPrinciple.cs:184-192 | `BetterFilter.Filter`: a subsequence of the items, no longer than them, holding exactly the items satisfying the specification |
| OpenClosed.FilterCounts | DesignPatterns/SOLID/OpenClosedPrinciple.cs:184-192 | each satisfying item occurs in the result as often as in the input; no other item occurs |
| OpenClosed.FilterIdempotent | DesignPatterns/SOLID/OpenClosedPrinciple.cs:184-192 | filtering a filtered list again with the same specification changes nothing |
| OpenClosed.ColorSpecification.IsSatisfied | DesignPatterns/SOLID/OpenClosedPrinciple.cs:202-205 | a product satisfies a colour specification exactly when the colour filter keeps it |
| OpenClosed.FilterByColorSpecification | DesignPatterns/SOLID/OpenClosedPrinciple.cs:195-206 | `BetterFilter` with a `ColorSpecification` gives the same list as the old colour filter |
| OpenClosed.GreenProducts | DesignPatterns/SOLID/OpenClosedPrinciple.cs:213-225 | in the demo catalogue, the colour filter and `BetterFilter` with a green `ColorSpecification` both select apple and then tree |
| OpenClosed.SatisfiedByAllTests | DesignPatterns/SOLID/OpenClosedPrinciple.cs:262-265 | a specification built from custom tests with `AndSpecification` is satisfied exactly when every one of those tests holds |
| OpenClosed.Conjoin | DesignPatterns/SOLID/OpenClosedPrinciple.cs:246-266 | `first & second` is an `AndSpecification` of the two, satisfied exactly when both are |
| OpenClosedDraft.NewProductAsWritten | SOLID/OpenClosedPrinciple.cs:127-130 | the draft constructor stores nothing: every field keeps its default, whatever the arguments |
| OpenClosedDraft.NewProduct | SOLID/OpenClosedPrinciple.cs:122-131 | the corrected constructor: the product holds the given name, colour and size |
| OpenClosedDraft.FilterByColor | SOLID/OpenClosedPrinciple.cs:145-150 | subsequence of the input holding exactly the products of that colour |
| OpenClosedDraft.FilterByColorList | SOLID/OpenClosedPrinciple.cs:136-143 | the loop returns the same products, in the same order, as the yield-based filter |
| OpenClosedDraft.FilterBySize | SOLID/OpenClosedPrinciple.cs:151-156 | subsequence of the input holding exactly the products of that size |
| OpenClosedDraft.FilterBySizeAndColor | SOLID/OpenClosedPrinciple.cs:157-162 | subsequence of the input holding exactly the products of that size and colour |
| OpenClosedDraft.SatisfiedByNamedCriteria | SOLID/OpenClosedPrinciple.cs:200-203 | a product satisfies a colour, size or `AndSpecification` exactly when it has every colour and every size the specification names |
| OpenClosedDraft.Conjoin | SOLID/OpenClosedPrinciple.cs:265-273 | `first & second` is an `AndSpecification` of the two, satisfied exactly when both are |
| OpenClosedDraft.And | SOLID/OpenClosedPrinciple.cs:284-292 | `color.And(size)` is the conjunction of a colour and a size specification and accepts exactly the products with both |
| OpenClosedDraft.Filter | SOLID/OpenClosedPrinciple.cs:182-190 | `BetterFilter.Filter`: a subsequence of the items, no longer than them, holding exactly the satisfying items |
| OpenClosedDraft.FilterCounts | SOLID/OpenClosedPrinciple.cs:182-190 | each satisfying item occurs in the result as often as in the input; no other item occurs |
| OpenClosedDraft.FilterConjunction | SOLID/OpenClosedPrinciple.cs:227-240 | filtering with an `AndSpecification` equals filtering with the first specification and then the second |
| OpenClosedDraft.FilterByColorSpecification | SOLID/OpenClosedPrinciple.cs:193-204 | `BetterFilter` with a `ColorSpecification` gives the same list as the colour filter |
| OpenClosedDraft.FilterBySizeSpecification | SOLID/OpenClosedPrinciple.cs:151-156 | `BetterFilter` with the assumed `SizeSpecification` gives the same list as the size filter |
| OpenClosedDraft.FilterByCriteria | SOLID/OpenClosedPrinciple.cs:284-294 | filtering with `color.And(size)` gives the same list as the size-and-colour filter |
| OpenClosedDraft.LargeGreenDemo | SOLID/OpenClosedPrinciple.cs:246-252 | with products built by the corrected constructor, the large green filter selects exactly the tree |
| OpenClosedDraft.AsWrittenDemoSelectsNothing | SOLID/OpenClosedPrinciple.cs:127-130 | with products built by the constructor as written, the same filter selects nothing |
| Decorator.Served | DesignPatterns/Creational/Decorator.cs:75-93 | the customers served from an initial stock are the first `min(stock, orders)` orders, in order |
| Decorator.ServedAfterOrder | DesignPatterns/Creational/Decorator.cs:82-93 | one more order appends its customer exactly when stock is left, and otherwise changes nothing |
| Decorator.Available.constructor | DesignPatterns/Creational/Decorator.cs:76-80 | a new decorator holds the dish and stock and has no customers |
| Decorator.Available.OrderItem | DesignPatterns/Creational/Decorator.cs:82-93 | in any state, with stock left the customer is appended and the stock drops by one, otherwise nothing changes; when served plus stock was the initial stock, it stays so |
| Decorator.Available.SetNumAvailable | DesignPatterns/Creational/Decorator.cs:75 | the public setter of `NumAvailable` changes the stock only |
| Decorator.RestockedOrder | DesignPatterns/Creational/Decorator.cs:75-93 | after the public setter raises the stock of a dish created with none, the next order is served and one portion is left |
| Decorator.CaesarOrders | DesignPatterns/Creational/Decorator.cs:117-124 | with three portions, John, Sally and Manush are all served and no stock is left |
| Decorator.AlfredoOrders | DesignPatterns/Creational/Decorator.cs:118-129 | with four portions, the fifth of five orders is refused: Sally, Francis, Venkat and Diana are served and no stock is left |
| SingleResponsibility.IsNullOrWhiteSpace | DesignPatterns/SOLID/SingleResponsibilityPrinciple.cs:38 | a string is null or white space exactly when it is not a non-null string with a visible character |
| SingleResponsibility.ValidateName | DesignPatterns/SOLID/SingleResponsibilityPrinciple.cs:36-42 | passes exactly when both names are non-null and have a non-white-space character; otherwise throws "The name is invalid!" |
| SingleResponsibility.ValidateEmail | DesignPatterns/SOLID/SingleResponsibilityPrinciple.cs:46-52 | a null address throws `NullReferenceException`; otherwise passes exactly when it contains '@' and '.' |
| SingleResponsibility.EmailOrderNotChecked | DesignPatterns/SOLID/SingleResponsibilityPrinciple.cs:46-52 | the e-mail check ignores where '@' and '.' occur: "a.b@c" passes, "a@b" fails |
| SingleResponsibility.InvitationChecks | DesignPatterns/SOLID/SingleResponsibilityPrinciple.cs:65-71 | names first, then e-mail; passes exactly when both checks pass |
| SingleResponsibility.CombinedChecks | DesignPatterns/SOLID/SingleResponsibilityPrinciple.cs:18-31 | the inline checks pass exactly when the names and the address are valid; bad names throw "Name is not valid!" |
| SingleResponsibility.RefactoringPreservesChecks | DesignPatterns/SOLID/SingleResponsibilityPrinciple.cs:18-71 | the split services accept the same inputs as the inline checks and throw the same exception, except for the wording of the name message |
| SingleResponsibility.Wrap32 | DesignPatterns/SOLID/SingleResponsibilityPrinciple.cs:81-84 | `++count` on a C# `int` lands in the 32-bit range and differs from the true sum by a multiple of 2^32: exact inside the range, and the maximum plus one becomes the minimum |
| SingleResponsibility.NatToString | DesignPatterns/SOLID/SingleResponsibilityPrinciple.cs:83 | the entry number is written as a non-empty string of decimal digits |
| SingleResponsibility.NatToStringValue | DesignPatterns/SOLID/SingleResponsibilityPrinciple.cs:83 | the digits written for a natural number denote that number |
| SingleResponsibility.NatToStringNoLeadingZero | DesignPatterns/SOLID/SingleResponsibilityPrinciple.cs:83 | a natural number is written without a leading zero: only 0 starts with '0' |
| SingleResponsibility.IntToStringValue | DesignPatterns/SOLID/SingleResponsibilityPrinciple.cs:83 | an `int` is written with a leading minus sign exactly when it is negative, digits everywhere else, and the string denotes it |
| SingleResponsibility.StampRoundTrip | DesignPatterns/SOLID/SingleResponsibilityPrinciple.cs:83 | the number before the first ':' of an entry and the text after ": " are the number and text it was made from |
| SingleResponsibility.JournalCounter.constructor | DesignPatterns/SOLID/SingleResponsibilityPrinciple.cs:78 | the static counter starts at 0 |
| SingleResponsibility.Journal.constructor | DesignPatterns/SOLID/SingleResponsibilityPrinciple.cs:75-80 | a new journal has no entries and shares the given counter |
| SingleResponsibility.Journal.AddEntry | DesignPatterns/SOLID/SingleResponsibilityPrinciple.cs:81-84 | the shared counter goes up by one (32-bit), one entry "count: text" is appended, and entry numbers stay increasing while the counter has not wrapped |
| SingleResponsibility.Journal.RemoveEntry | DesignPatterns/SOLID/SingleResponsibilityPrinciple.cs:85-88 | an index out of range throws `ArgumentOutOfRangeException` and changes nothing; otherwise exactly that entry goes, the rest keep their order, and numbering stays increasing |
| SingleResponsibility.RemovePreservesIncreasing | DesignPatterns/SOLID/SingleResponsibilityPrinciple.cs:85-88 | deleting one entry number keeps the numbers strictly increasing |
| SingleResponsibility.DemoStamps | DesignPatterns/SOLID/SingleResponsibilityPrinciple.cs:83 | entries are written as "1: I cried today." and "2: I ate a bug." |
| SingleResponsibility.TwoEntries | DesignPatterns/SOLID/SingleResponsibilityPrinciple.cs:100-105 | the demo journal holds "1: I cried today." and "2: I ate a bug." |
| SingleResponsibility.SharedNumbering | DesignPatterns/SOLID/SingleResponsibilityPrinciple.cs:78-84 | because the counter is static, a second journal's first entry is numbered 2 |
| Liskov.Ellipse.constructor | DesignPatterns/SOLID/LiskovSubstitutionPrinciple.cs:14-17 | both axes start at 0 |
| Liskov.Ellipse.SetMajorAxis | DesignPatterns/SOLID/LiskovSubstitutionPrinciple.cs:18-62 | an ellipse sets the major axis only; both circle overrides also copy it into the minor axis and end round |
| Liskov.Ellipse.SetMinorAxis | DesignPatterns/SOLID/LiskovSubstitutionPrinciple.cs:22-67 | an ellipse and `Circle_Lsp` set the minor axis only; `Circle_v1_Lsp` also copies it into the major axis and ends round |
| Liskov.Ellipse.AssignMajorAxis | DesignPatterns/SOLID/LiskovSubstitutionPrinciple.cs:16 | the auto-property setter changes the major axis only |
| Liskov.Ellipse.AssignMinorAxis | DesignPatterns/SOLID/LiskovSubstitutionPrinciple.cs:17 | the auto-property setter changes the minor axis only |
| Liskov.CircleTest | DesignPatterns/SOLID/LiskovSubstitutionPrinciple.cs:41-54 | the `Circle_Lsp` test ends with major axis 5 and minor axis 4: not a circle |
| Liskov.SetBothAxes | DesignPatterns/SOLID/LiskovSubstitutionPrinciple.cs:14-72 | setting both axes yields the requested axes unless the object is `Circle_v1_Lsp` and they differ, and yields equal axes only for `Circle_v1_Lsp` or equal requests: no subclass is both substitutable and round |
| Liskov.PropertySetterBypass | DesignPatterns/SOLID/LiskovSubstitutionPrinciple.cs:16-17 | the public property setters bypass `Circle_v1_Lsp`'s overrides and leave it with axes 5 and 4 |
| Liskov.CircleV2.constructor | DesignPatterns/SOLID/LiskovSubstitutionPrinciple.cs:74-76 | the radius starts at 0 |
| Liskov.CircleV2.SetRadius | DesignPatterns/SOLID/LiskovSubstitutionPrinciple.cs:77-80 | the radius becomes the given value |
| LiskovDraft.Ellipse.constructor | SOLID/LiskovSubstitutionPrinciple.cs:8-11 | both axes start at 0 |
| LiskovDraft.Ellipse.SetMajorAxis | SOLID/LiskovSubstitutionPrinciple.cs:13-54 | an ellipse sets the major axis only; both circle overrides also copy it into the minor axis and end round |
| LiskovDraft.Ellipse.SetMinorAxis | SOLID/LiskovSubstitutionPrinciple.cs:18-60 | an ellipse and the first circle set the minor axis only; the second circle also copies it into the major axis and ends round |
| LiskovDraft.Ellipse.AssignMajorAxis | SOLID/LiskovSubstitutionPrinciple.cs:10 | the auto-property setter changes the major axis only |
| LiskovDraft.Ellipse.AssignMinorAxis | SOLID/LiskovSubstitutionPrinciple.cs:11 | the auto-property setter changes the minor axis only |
| LiskovDraft.CircleTest | SOLID/LiskovSubstitutionPrinciple.cs:41-44 | the first circle given major axis 5 and minor axis 4 keeps them unequal |
| LiskovDraft.SetBothAxes | SOLID/LiskovSubstitutionPrinciple.cs:8-60 | setting both axes yields the requested axes unless the object is the second circle and they differ, and equal axes only for that circle or equal requests |
| LiskovDraft.PropertySetterBypass | SOLID/LiskovSubstitutionPrinciple.cs:10-11 | the property setters bypass the second circle's overrides and leave it with axes 5 and 4 |
| LiskovDraft.Circle.constructor | SOLID/LiskovSubstitutionPrinciple.cs:70-72 | the radius starts at 0 |
| LiskovDraft.Circle.SetRadius | SOLID/LiskovSubstitutionPrinciple.cs:73-76 | the radius becomes the given value |
| FactoryMethod.Recipe | DesignPatterns/Creational/Factory02.cs:38-56 | every sandwich has bread at both ends; the veggie sandwich has no turkey; the turkey sandwich has two |
| FactoryMethod.IngredientList.constructor | DesignPatterns/Creational/Factory02.cs:19 | the ingredient list starts empty |
| FactoryMethod.IngredientList.Add | DesignPatterns/Creational/Factory02.cs:40-45 | `Add` appends one ingredient |
| FactoryMethod.Sandwich.constructor | DesignPatterns/Creational/Factory02.cs:19-24 | a new sandwich owns a new list holding exactly its class's recipe |
| FactoryMethod.Sandwich.CreateIngredients | DesignPatterns/Creational/Factory02.cs:38-56 | each override appends its recipe, in order, to the sandwich's list |
| FactoryMethod.TestSandwiches | DesignPatterns/Creational/Factory02.cs:60-77 | the turkey sandwich holds six ingredients and the veggie sandwich four, in the listed order |
| FactoryMethod.IngredientsAreShared | DesignPatterns/Creational/Factory02.cs:29-32 | the `Ingredients` getter returns the sandwich's own list, so adding to it changes the sandwich |
| CreditCards.CardTypeNamesDistinct | DesignPatterns/Creational/Factory01.cs:14-103 | the three card classes have distinct `CardType` names |
| CreditCards.CreditCard.constructor | DesignPatterns/Creational/Factory01.cs:20-25 | a card holds its class's type name and the given limit and charge |
| CreditCards.CreditCard.SetCreditLimit | DesignPatterns/Creational/Factory01.cs:32-36 | the setter changes the limit only |
| CreditCards.CreditCard.SetAnnualCharge | DesignPatterns/Creational/Factory01.cs:38-42 | the setter changes the charge only |
| CreditCards.CardFactory.constructor | DesignPatterns/Creational/Factory01.cs:110-119 | a factory keeps the limit and charge it was built with |
| CreditCards.CardFactory.GetCreditCard | DesignPatterns/Creational/Factory01.cs:121-124 | each call returns a new card of the factory's class with the factory's limit and charge |
| CreditCards.ToLower | DesignPatterns/Creational/Factory01.cs:168 | lower-casing keeps the length and lowers each character |
| CreditCards.ToLowerIdempotent | DesignPatterns/Creational/Factory01.cs:168 | lower-casing twice equals lower-casing once |
| CreditCards.SelectFactory | DesignPatterns/Creational/Factory01.cs:166-181 | a factory is chosen exactly for the keys "moneyback", "titanium" and "platinum" in any case, and its card type name matches the key |
| CreditCards.SelectFactoryIgnoresCase | DesignPatterns/Creational/Factory01.cs:168 | the choice depends on the lower-cased key only |
| CreditCards.SelectionTable | DesignPatterns/Creational/Factory01.cs:170-180 | MoneyBack gives 50000/0, titanium 100000/500, PLATINUM 500000/1000, and any other key no factory |
| CreditCards.IssueCard | DesignPatterns/Creational/Factory01.cs:162-187 | a known key yields a card with the selected class, limit and charge; an unknown key throws `NullReferenceException` |
| CreditCards.CardsAreIndependent | DesignPatterns/Creational/Factory01.cs:121-124 | changing one card's limit does not change the next card the factory makes |
| AirConditioning.AirConditionerFactory.Create | DesignPatterns/Creational/Factory00.cs:47-54 | each factory creates a unit of its own mode holding the given temperature |
| AirConditioning.AirConditioner.ExecuteCreation | DesignPatterns/Creational/Factory00.cs:75 | succeeds exactly when a factory is registered for the action, with that temperature; otherwise throws `KeyNotFoundException` |
| AirConditioning.NewAirConditioner | DesignPatterns/Creational/Factory00.cs:66-73 | the table has exactly the two actions, each mapped to a factory of that mode |
| AirConditioning.InitializeFactories | DesignPatterns/Creational/Factory00.cs:74 | the table has exactly the two actions |
| AirConditioning.ExecuteCreationTotal | DesignPatterns/Creational/Factory00.cs:66-75 | on a new air conditioner every action succeeds and yields a unit of that action with the given temperature |
| AbstractFactory.RecipeFactory.CreateSandwich | DesignPatterns/Creational/AbstractFactory.cs:30-52 | each factory's sandwich belongs to the factory's family |
| AbstractFactory.RecipeFactory.CreateDessert | DesignPatterns/Creational/AbstractFactory.cs:30-52 | each factory's dessert belongs to the factory's family |
| AbstractFactory.SelectFactory | DesignPatterns/Creational/AbstractFactory.cs:66-79 | 'A' picks the adult factory, 'C' the kid factory, and any other key throws `NotImplementedException` |
| AbstractFactory.TestFactory | DesignPatterns/Creational/AbstractFactory.cs:62-86 | a selected factory yields a sandwich and a dessert of the same family |
| AbstractFactory.TestFactoryMeals | DesignPatterns/Creational/AbstractFactory.cs:62-86 | 'A' gives a BLT and crème brûlée, 'C' a grilled cheese and a sundae, and lower-case 'a' throws |
| Singleton.TheBellStatics.constructor | DesignPatterns/Creational/Singleton.cs:24 | the static field starts null and no bell exists |
| Singleton.TheBellStatics.GetInstance | DesignPatterns/Creational/Singleton.cs:32-45 | the first call creates the one bell; later calls return that same bell and create nothing |
| Singleton.TestSingleton | DesignPatterns/Creational/Singleton.cs:12-19 | two successive accesses return the same object |

## Left out

- Console output (`WriteLine`, `Display`, `TheBell.Ring`, the demo loops that print) is not modelled; the demos are modelled by the state they leave behind (customers served, journal entries, axes, ingredients, selected factories), not by the text or the areas they print.
- `Ellipse_Lsp.Area` and `Circle_v2_Lsp.Area` are floating-point computations and are not modelled; axis and radius values are only stored, so `double` is modelled as `real` (no NaN, no rounding).
- Sending mail by SMTP in the invitation services is not modelled; only the validation that decides whether mail is sent is.
- `Journal.Save` and `PersistenceManager` write to files and are not modelled.
- The `lock` in `TheBell.GetInstance` is not modelled: the model is sequential, so there are no concurrent callers to exclude.
- `TheBell`'s private constructor: Dafny has no private constructors; the ghost count `created` in `TheBellStatics` counts the bells `GetInstance` creates, and a `new TheBell()` elsewhere would go uncounted.
- `AirConditionerRef` (reflection-based factory lookup), dependency-injection wiring, the Interface Segregation, Dependency Inversion and DRY examples, and the Template Method example are not part of this model.
- Reference identity of products and ingredient objects is not modelled: both are values, so two equal products are indistinguishable.
- The filters written with `yield return` and `BetterFilter.Filter` run lazily in C#: they read the product list only when enumerated, and again on every enumeration, whereas `FilterByColorList` copies it at the call. The model computes every filter at the call on an immutable sequence, so a list changed between a filter call and its enumeration is not modelled, and `FilterByColorList` agrees with `FilterByColor` only under that reading.
- A `null` product in a filtered list (which throws `NullReferenceException` on `p.Color`) is not modelled: products are values and lists hold no nulls.
- A `null` text in `Journal.AddEntry` (interpolated as the empty string) and a `null` name in `Available.OrderItem` (stored as is) are not modelled: both parameters are strings without a null value; `null` is modelled only for the validators' arguments, where it changes the outcome.
- The restaurant dishes of the Decorator example are payload only; `Available` does not read them.
- Decorator.Available.SetNumAvailable: the public `NumAvailable` setter can break the relation between served customers and remaining stock, so its contract states the new stock only and does not keep the object's invariant.
- SingleResponsibility.Journal.AddEntry: entry numbers are proved to stay increasing only while the shared counter is below the 32-bit maximum; after `++count` wraps round, new numbers are negative and the order is lost, as in C#.
- CreditCards.ToLower: only ASCII letters are lowered, by the ASCII mapping; `String.ToLower()` uses the current culture, and the model assumes one whose lowering of ASCII letters is ASCII (invariant or English). Under a Turkish or Azerbaijani culture the ASCII `I` lowers to a dotless `ı`, so upper-case keys containing `I` ("PLATINUM", "TITANIUM") select no factory there, unlike `SelectionTable`; non-ASCII keys that a culture would lower onto a switch key are not modelled either.
- SingleResponsibility.IsWhiteSpace: strings are sequences of Unicode scalar values, not UTF-16 code units, so `Char.IsWhiteSpace` is modelled on the characters it lists.
- OpenClosedDraft.Specification: the draft's generic `ISpecification<T>`/`AndSpecification<T>` are specialised to products, the only type they are used with there; the open interface `ISpecification<T>` becomes a closed datatype of the three specifications the draft uses (colour, size, conjunction), so a further specification class is not modelled; `SizeSpecification` is not defined in the repository and is assumed to mirror `ColorSpecification`.
- OpenClosed.Conjoin: specifications are closed datatypes (a custom test or a conjunction), not an open interface that other classes can implement.

## Findings

| source | as written | input that shows it | evidently intended | confidence | as-written member | corrected member |
|---|---|---|---|---|---|---|
| SOLID/OpenClosedPrinciple.cs:127-130 | the `Product` constructor body is empty, so name, colour and size keep their defaults (null, `Red`, `Small`) | `new Product("Tree", Color.Green, Size.Large)` filtered by `Green & Large` selects nothing | the constructor stores its three arguments, so the tree is selected | not executed | OpenClosedDraft.AsWrittenDemoSelectsNothing | OpenClosedDraft.LargeGreenDemo |
