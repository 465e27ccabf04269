/** The credit-card factories of DesignPatterns/Creational/Factory01.cs: three
    card classes, one factory per card class, and the switch in
    `TestCreditCardFactory.TestMain` that picks a factory by name. */
module CreditCards {
  import opened Wrappers

  /** The concrete class of a card, and of the factory that makes it. */
  datatype CardKind = MoneyBack | Titanium | Platinum

  /** The `CardType` each card class sets in its constructor. */
  function CardTypeName(kind: CardKind): string {
    match kind
    case MoneyBack => "MoneyBack"
    case Titanium => "Titanium"
    case Platinum => "Platinum"
  }

  /** The card type names tell the three card classes apart. */
  lemma CardTypeNamesDistinct(a: CardKind, b: CardKind)
    ensures CardTypeName(a) == CardTypeName(b) <==> a == b
  {
  }

  /** `MoneyBackCreditCard`, `TitaniumCreditCard` and `PlatinumCreditCard`. The
      card type is read-only; limit and charge have setters. */
  class CreditCard {
    const kind: CardKind
    const cardType: string
    var creditLimit: int
    var annualCharge: int

    constructor (kind: CardKind, creditLimit: int, annualCharge: int)
      ensures this.kind == kind && cardType == CardTypeName(kind)
      ensures this.creditLimit == creditLimit && this.annualCharge == annualCharge
    {
      this.kind := kind;
      cardType := CardTypeName(kind);
      this.creditLimit := creditLimit;
      this.annualCharge := annualCharge;
    }

    /** The `CreditLimit` setter: changes the limit only. */
    method SetCreditLimit(value: int)
      modifies this`creditLimit
      ensures creditLimit == value
    {
      creditLimit := value;
    }

    /** The `AnnualCharge` setter: changes the charge only. */
    method SetAnnualCharge(value: int)
      modifies this`annualCharge
      ensures annualCharge == value
    {
      annualCharge := value;
    }
  }

  /** `MoneyBackFactory`, `TitaniumFactory` and `PlatinumFactory`: each keeps the
      limit and charge it was built with (private, never reassigned). */
  class CardFactory {
    const kind: CardKind
    const creditLimit: int
    const annualCharge: int

    constructor (kind: CardKind, creditLimit: int, annualCharge: int)
      ensures this.kind == kind && this.creditLimit == creditLimit && this.annualCharge == annualCharge
    {
      this.kind := kind;
      this.creditLimit := creditLimit;
      this.annualCharge := annualCharge;
    }

    /** `GetCreditCard`: a new card of the factory's own class carrying exactly
        the factory's limit and charge. */
    method GetCreditCard() returns (card: CreditCard)
      ensures fresh(card)
      ensures card.kind == kind && card.cardType == CardTypeName(kind)
      ensures card.creditLimit == creditLimit && card.annualCharge == annualCharge
    {
      card := new CreditCard(kind, creditLimit, annualCharge);
    }
  }

  /** `Char.ToLower` on the ASCII letters; every other character is kept. */
  function LowerChar(c: char): char {
    if 'A' <= c <= 'Z' then (c as int + 32) as char else c
  }

  /** `String.ToLower`, character by character. */
  function ToLower(s: string): (r: string)
    ensures |r| == |s| && forall i :: 0 <= i < |s| ==> r[i] == LowerChar(s[i])
  {
    seq(|s|, i requires 0 <= i < |s| => LowerChar(s[i]))
  }

  /** Lower-casing twice is lower-casing once. */
  lemma ToLowerIdempotent(s: string)
    ensures ToLower(ToLower(s)) == ToLower(s)
  {
  }

  /** The exception `TestMain` can raise. */
  datatype Exception = NullReferenceException

  /** A factory the switch can build: its class and constructor arguments. */
  datatype Selection = Selection(kind: CardKind, creditLimit: int, annualCharge: int)

  /** The `switch (car.ToLower())` of `TestMain`; `None` is the default case,
      which leaves `factory` null. */
  function SelectFactory(key: string): (r: Option<Selection>)
    ensures r.Some? <==> ToLower(key) in {"moneyback", "titanium", "platinum"}
    ensures r.Some? ==> ToLower(CardTypeName(r.value.kind)) == ToLower(key)
  {
    match ToLower(key)
    case "moneyback" => Some(Selection(MoneyBack, 50000, 0))
    case "titanium" => Some(Selection(Titanium, 100000, 500))
    case "platinum" => Some(Selection(Platinum, 500000, 1000))
    case _ => None
  }

  /** The switch ignores case: keys that lower-case alike select alike. */
  lemma SelectFactoryIgnoresCase(key: string)
    ensures SelectFactory(key) == SelectFactory(ToLower(key))
  {
    ToLowerIdempotent(key);
  }

  /** The three keys of the switch with their factory arguments, matched in any
      case; any other key selects nothing. */
  lemma SelectionTable()
    ensures SelectFactory("MoneyBack") == Some(Selection(MoneyBack, 50000, 0))
    ensures SelectFactory("titanium") == Some(Selection(Titanium, 100000, 500))
    ensures SelectFactory("PLATINUM") == Some(Selection(Platinum, 500000, 1000))
    ensures SelectFactory("gold") == None
  {
    assert ToLower("MoneyBack") == "moneyback";
    assert ToLower("titanium") == "titanium";
    assert ToLower("PLATINUM") == "platinum";
    assert ToLower("gold") == "gold";
  }

  /** The rest of `TestMain`: build the selected factory and ask it for a card.
      With no factory selected, the call on the null reference throws. */
  method IssueCard(key: string) returns (r: Result<CreditCard, Exception>)
    ensures r.Success? <==> SelectFactory(key).Some?
    ensures r.Success? ==>
              var s := SelectFactory(key).value;
              && r.value.kind == s.kind && r.value.cardType == CardTypeName(s.kind)
              && r.value.creditLimit == s.creditLimit && r.value.annualCharge == s.annualCharge
    ensures r.Failure? ==> r.error == NullReferenceException
  {
    match SelectFactory(key)
    case None =>
      r := Failure(NullReferenceException);
    case Some(s) =>
      var factory := new CardFactory(s.kind, s.creditLimit, s.annualCharge);
      var card := factory.GetCreditCard();
      r := Success(card);
  }

  /** A card is a new object: changing it leaves the factory, and the next card
      it makes, as they were. */
  method CardsAreIndependent(newLimit: int) returns (changed: int, next: int)
    ensures changed == newLimit && next == 50000
  {
    var factory := new CardFactory(MoneyBack, 50000, 0);
    var card := factory.GetCreditCard();
    card.SetCreditLimit(newLimit);
    var other := factory.GetCreditCard();
    changed, next := card.creditLimit, other.creditLimit;
  }
}
