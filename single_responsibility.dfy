/** The validation services and the `Journal` of the Single Responsibility
    example (DesignPatterns/SOLID/SingleResponsibilityPrinciple.cs). Sending the
    invitation by SMTP and saving the journal to a file are not modelled. */
module SingleResponsibility {
  import opened Wrappers

  /** The exceptions the example can raise. */
  datatype Exception =
    | Exception(message: string)
    | NullReferenceException
    | ArgumentOutOfRangeException

  // ---------------------------------------------------------------------------
  // String tests of the .NET library
  // ---------------------------------------------------------------------------

  /** `Char.IsWhiteSpace`: the Unicode space, line and paragraph separators and
      the control characters U+0009 to U+000D and U+0085. */
  predicate IsWhiteSpace(c: char) {
    || '\U{0009}' <= c <= '\U{000D}'
    || c == '\U{0020}' || c == '\U{0085}' || c == '\U{00A0}' || c == '\U{1680}'
    || '\U{2000}' <= c <= '\U{200A}'
    || c == '\U{2028}' || c == '\U{2029}' || c == '\U{202F}' || c == '\U{205F}' || c == '\U{3000}'
  }

  /** A non-null string with at least one character that is not white space. */
  ghost predicate HasVisibleChar(s: Option<string>) {
    s.Some? && exists i :: 0 <= i < |s.value| && !IsWhiteSpace(s.value[i])
  }

  /** `String.IsNullOrWhiteSpace`: null, empty, or white space only; that is,
      exactly the strings without a visible character. */
  predicate IsNullOrWhiteSpace(s: Option<string>)
    ensures IsNullOrWhiteSpace(s) <==> !HasVisibleChar(s)
  {
    s.None? || forall i :: 0 <= i < |s.value| ==> IsWhiteSpace(s.value[i])
  }

  /** A non-null string containing both an '@' and a '.', anywhere. */
  ghost predicate HasAtAndDot(s: Option<string>) {
    s.Some? && (exists i :: 0 <= i < |s.value| && s.value[i] == '@')
            && (exists j :: 0 <= j < |s.value| && s.value[j] == '.')
  }

  // ---------------------------------------------------------------------------
  // Validation
  // ---------------------------------------------------------------------------

  /** `UserNameService.Validate`: throws unless both names have a visible character. */
  function ValidateName(firstName: Option<string>, lastName: Option<string>): (r: Outcome<Exception>)
    ensures r.Pass? <==> HasVisibleChar(firstName) && HasVisibleChar(lastName)
    ensures r.Fail? ==> r.error == Exception("The name is invalid!")
  {
    if IsNullOrWhiteSpace(firstName) || IsNullOrWhiteSpace(lastName) then
      Fail(Exception("The name is invalid!"))
    else
      Pass
  }

  /** `EmailService.Validate`: a null address fails on `Contains` itself; any
      other address passes iff it holds an '@' and a '.', in either order. */
  function ValidateEmail(email: Option<string>): (r: Outcome<Exception>)
    ensures r.Pass? <==> HasAtAndDot(email)
    ensures email.None? ==> r == Fail(NullReferenceException)
    ensures email.Some? && r.Fail? ==> r.error == Exception("Email is not valid!!")
  {
    match email
    case None => Fail(NullReferenceException)
    case Some(address) =>
      if '@' !in address || '.' !in address then Fail(Exception("Email is not valid!!")) else Pass
  }

  /** The relative position of '@' and '.' is not checked. */
  lemma EmailOrderNotChecked()
    ensures ValidateEmail(Some("a.b@c")).Pass?
    ensures ValidateEmail(Some("a@b")).Fail?
  {
  }

  /** The validating part of `InvitationService.SendInvite`: the name service
      first, then the e-mail service; the invitation is sent only on `Pass`. */
  function InvitationChecks(email: Option<string>, firstName: Option<string>, lastName: Option<string>)
    : (r: Outcome<Exception>)
    ensures r.Pass? <==> HasVisibleChar(firstName) && HasVisibleChar(lastName) && HasAtAndDot(email)
    ensures !(HasVisibleChar(firstName) && HasVisibleChar(lastName)) ==>
              r == Fail(Exception("The name is invalid!"))
    ensures HasVisibleChar(firstName) && HasVisibleChar(lastName) ==> r == ValidateEmail(email)
  {
    match ValidateName(firstName, lastName)
    case Fail(e) => Fail(e)
    case Pass => ValidateEmail(email)
  }

  /** The validating part of `ValidateSendInvitationService.SendInvite`: the same
      two checks in the same order, before any sending. */
  function CombinedChecks(email: Option<string>, firstName: Option<string>, lastName: Option<string>)
    : (r: Outcome<Exception>)
    ensures r.Pass? <==> HasVisibleChar(firstName) && HasVisibleChar(lastName) && HasAtAndDot(email)
    ensures !(HasVisibleChar(firstName) && HasVisibleChar(lastName)) ==>
              r == Fail(Exception("Name is not valid!"))
  {
    if IsNullOrWhiteSpace(firstName) || IsNullOrWhiteSpace(lastName) then
      Fail(Exception("Name is not valid!"))
    else if email.None? then
      Fail(NullReferenceException)
    else if '@' !in email.value || '.' !in email.value then
      Fail(Exception("Email is not valid!!"))
    else
      Pass
  }

  /** The refactoring keeps behaviour: both services reject the same inputs,
      and with the same exception except for the wording of the name message. */
  lemma RefactoringPreservesChecks(email: Option<string>, firstName: Option<string>, lastName: Option<string>)
    ensures InvitationChecks(email, firstName, lastName).Pass? <==> CombinedChecks(email, firstName, lastName).Pass?
    ensures InvitationChecks(email, firstName, lastName) == Fail(Exception("The name is invalid!"))
        <==> CombinedChecks(email, firstName, lastName) == Fail(Exception("Name is not valid!"))
    ensures CombinedChecks(email, firstName, lastName) != Fail(Exception("Name is not valid!")) ==>
              InvitationChecks(email, firstName, lastName) == CombinedChecks(email, firstName, lastName)
  {
  }

  // ---------------------------------------------------------------------------
  // Journal
  // ---------------------------------------------------------------------------

  const Int32Min: int := -0x8000_0000
  const Int32Max: int := 0x7FFF_FFFF

  /** C#'s unchecked 32-bit `int` arithmetic: wrap into [Int32Min, Int32Max].
      The result differs from `x` by a multiple of 2^32, so `Int32Max + 1`
      becomes `Int32Min`. */
  function Wrap32(x: int): (r: int)
    ensures Int32Min <= r <= Int32Max
    ensures (r - x) % 0x1_0000_0000 == 0
    ensures Int32Min <= x <= Int32Max ==> r == x
    ensures x == Int32Max + 1 ==> r == Int32Min
  {
    (x - Int32Min) % 0x1_0000_0000 + Int32Min
  }

  /** The digit a character stands for. */
  function DigitValue(c: char): int {
    c as int - '0' as int
  }

  function DigitChar(d: nat): (c: char)
    requires d < 10
    ensures '0' <= c <= '9' && DigitValue(c) == d
  {
    ('0' as int + d) as char
  }

  /** The number a string of decimal digits denotes, most significant first. */
  function DecValue(s: string): int
    decreases |s|
  {
    if s == [] then 0 else DecValue(s[..|s| - 1]) * 10 + DigitValue(s[|s| - 1])
  }

  /** The number a string denotes, with an optional leading minus sign. */
  function IntValue(s: string): int {
    if s != [] && s[0] == '-' then -DecValue(s[1..]) else DecValue(s)
  }

  /** Decimal notation of a natural number, without leading zeros. */
  function NatToString(n: nat): (s: string)
    ensures |s| >= 1
    ensures forall i :: 0 <= i < |s| ==> '0' <= s[i] <= '9'
    decreases n
  {
    if n < 10 then [DigitChar(n)] else NatToString(n / 10) + [DigitChar(n % 10)]
  }

  /** The digits `NatToString` writes denote the number. */
  lemma {:induction false} NatToStringValue(n: nat)
    ensures DecValue(NatToString(n)) == n
    decreases n
  {
    var s := NatToString(n);
    if n < 10 {
      assert s[..|s| - 1] == [];
    } else {
      NatToStringValue(n / 10);
      assert s[..|s| - 1] == NatToString(n / 10);
    }
  }

  /** `NatToString` writes no leading zero: only 0 itself starts with '0'. */
  lemma {:induction false} NatToStringNoLeadingZero(n: nat)
    ensures NatToString(n)[0] == '0' ==> n == 0
    decreases n
  {
    if n >= 10 {
      NatToStringNoLeadingZero(n / 10);
      assert NatToString(n)[0] == NatToString(n / 10)[0];
    }
  }

  /** An `int` as string interpolation writes it: a minus sign for a negative
      number, then its decimal digits. */
  function IntToString(n: int): string {
    if n < 0 then "-" + NatToString(-n) else NatToString(n)
  }

  /** `IntToString` writes a minus sign in front exactly for a negative number,
      digits everywhere else, and the string denotes the number. */
  lemma IntToStringValue(n: int)
    ensures |IntToString(n)| >= 1
    ensures IntToString(n)[0] == '-' <==> n < 0
    ensures forall i :: 0 <= i < |IntToString(n)| ==> IntToString(n)[i] == '-' || '0' <= IntToString(n)[i] <= '9'
    ensures forall i :: 1 <= i < |IntToString(n)| ==> '0' <= IntToString(n)[i] <= '9'
    ensures IntValue(IntToString(n)) == n
  {
    if n < 0 {
      NatToStringValue(-n);
      assert IntToString(n)[1..] == NatToString(-n);
    } else {
      NatToStringValue(n);
    }
  }

  /** The part of a journal entry before its first ':'. */
  function NumberPart(entry: string): (r: string)
    ensures |r| <= |entry| && r == entry[..|r|]
    decreases |entry|
  {
    if entry == [] || entry[0] == ':' then [] else [entry[0]] + NumberPart(entry[1..])
  }

  /** The part of a journal entry after the ": " that follows its number. */
  function TextPart(entry: string): string {
    var k := |NumberPart(entry)|;
    if k + 2 <= |entry| then entry[k + 2..] else []
  }

  /** A prefix without ':' followed by ':' is the number part. */
  lemma {:induction false} NumberPartOf(prefix: string, rest: string)
    requires ':' !in prefix && rest != [] && rest[0] == ':'
    ensures NumberPart(prefix + rest) == prefix
    decreases |prefix|
  {
    if prefix != [] {
      assert (prefix + rest)[1..] == prefix[1..] + rest;
      NumberPartOf(prefix[1..], rest);
    }
  }

  /** The text of a journal entry: `"<number>: <text>"`. */
  function Stamp(number: int, text: string): string {
    IntToString(number) + ": " + text
  }

  /** Number and text can be read back from an entry, so different numbers
      or texts give different entries. */
  lemma StampRoundTrip(number: int, text: string)
    ensures IntValue(NumberPart(Stamp(number, text))) == number
    ensures TextPart(Stamp(number, text)) == text
  {
    var digits := IntToString(number);
    IntToStringValue(number);
    NumberPartOf(digits, ": " + text);
    assert Stamp(number, text) == digits + (": " + text);
  }

  ghost predicate StrictlyIncreasing(s: seq<int>) {
    forall i, j :: 0 <= i < j < |s| ==> s[i] < s[j]
  }

  /** The static field `Journal.count`, shared by every journal. */
  class JournalCounter {
    var count: int

    constructor ()
      ensures count == 0
    {
      count := 0;
    }
  }

  /** `Journal`. The ghost fields remember the number and the text that make up
      each entry. */
  class Journal {
    const counter: JournalCounter
    var entries: seq<string>
    ghost var numbers: seq<int>
    ghost var texts: seq<string>

    /** Each entry is the stamp of its number and text. */
    ghost predicate Valid()
      reads this
    {
      && |numbers| == |entries|
      && |texts| == |entries|
      && forall i :: 0 <= i < |entries| ==> entries[i] == Stamp(numbers[i], texts[i])
    }

    /** The entry numbers increase along the list and none exceeds the counter. */
    ghost predicate Numbered()
      reads this, counter
    {
      && Valid()
      && StrictlyIncreasing(numbers)
      && forall i :: 0 <= i < |numbers| ==> numbers[i] <= counter.count
    }

    /** A new journal, sharing `counter` with all the others. */
    constructor (counter: JournalCounter)
      ensures this.counter == counter && entries == []
      ensures Valid() && numbers == [] && texts == []
    {
      this.counter := counter;
      entries := [];
      numbers := [];
      texts := [];
    }

    /** `AddEntry(text)`: increment the shared counter and append one entry
        stamped with its new value. */
    method AddEntry(text: string)
      requires Valid()
      modifies this, counter
      ensures Valid()
      ensures counter.count == Wrap32(old(counter.count) + 1)
      ensures entries == old(entries) + [Stamp(counter.count, text)]
      ensures numbers == old(numbers) + [counter.count] && texts == old(texts) + [text]
      ensures old(Numbered()) && old(counter.count) < Int32Max ==> Numbered()
    {
      counter.count := Wrap32(counter.count + 1);
      entries := entries + [Stamp(counter.count, text)];
      numbers := numbers + [counter.count];
      texts := texts + [text];
    }

    /** `RemoveEntry(index)`: `List.RemoveAt`, which throws for an index out of
        range; otherwise exactly that entry goes, the others keep their order
        and the counter is untouched. */
    method RemoveEntry(index: int) returns (outcome: Outcome<Exception>)
      requires Valid()
      modifies this
      ensures Valid()
      ensures counter.count == old(counter.count)
      ensures outcome.Pass? <==> 0 <= index < |old(entries)|
      ensures outcome.Pass? ==>
                && entries == old(entries[..index] + entries[index + 1..])
                && numbers == old(numbers[..index] + numbers[index + 1..])
      ensures outcome.Fail? ==>
                outcome.error == ArgumentOutOfRangeException && entries == old(entries) && numbers == old(numbers)
      ensures old(Numbered()) ==> Numbered()
    {
      if index < 0 || index >= |entries| {
        return Fail(ArgumentOutOfRangeException);
      }
      ghost var oldNumbers := numbers;
      entries := entries[..index] + entries[index + 1..];
      numbers := numbers[..index] + numbers[index + 1..];
      texts := texts[..index] + texts[index + 1..];
      RemovePreservesIncreasing(oldNumbers, index);
      outcome := Pass;
    }
  }

  /** Deleting one element keeps a strictly increasing sequence so. */
  lemma RemovePreservesIncreasing(s: seq<int>, index: nat)
    requires index < |s|
    ensures StrictlyIncreasing(s) ==> StrictlyIncreasing(s[..index] + s[index + 1..])
  {
  }

  /** The two entry texts of the demonstrations. */
  lemma DemoStamps()
    ensures Stamp(1, "I cried today.") == "1: I cried today."
    ensures Stamp(2, "I ate a bug.") == "2: I ate a bug."
  {
  }

  /** `MainJournal.Main`: two entries on a fresh counter are numbered 1 and 2. */
  method TwoEntries() returns (entries: seq<string>)
    ensures entries == ["1: I cried today.", "2: I ate a bug."]
  {
    DemoStamps();
    var counter := new JournalCounter();
    var j := new Journal(counter);
    j.AddEntry("I cried today.");
    j.AddEntry("I ate a bug.");
    entries := j.entries;
  }

  /** The counter is shared: a second journal continues the first one's numbering. */
  method SharedNumbering() returns (first: seq<string>, second: seq<string>)
    ensures first == ["1: I cried today."] && second == ["2: I ate a bug."]
  {
    DemoStamps();
    var counter := new JournalCounter();
    var a := new Journal(counter);
    var b := new Journal(counter);
    a.AddEntry("I cried today.");
    first := a.entries;
    b.AddEntry("I ate a bug.");
    second := b.entries;
  }
}
