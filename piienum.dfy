// The enumeration of PII types: nineteen members numbered 1..19 in
// declaration order, plus the old name STREET_ADDRESS as an alias of
// LOCATION. Members can be looked up by number or by name.

module PiiEnums {
  import opened Values

  datatype PiiEnum =
    | CreditCard | BankAccount | BlockchainAddress
    | IpAddress | EmailAddress | Username
    | PhoneNumber | LicensePlate | GovId
    | Password | Key
    | Person | Location | Age | Date | Norp | Medical | Org
    | Other

  /** The members in declaration order; the alias is not a member. */
  const Members: seq<PiiEnum> := [
    CreditCard, BankAccount, BlockchainAddress,
    IpAddress, EmailAddress, Username,
    PhoneNumber, LicensePlate, GovId,
    Password, Key,
    Person, Location, Age, Date, Norp, Medical, Org,
    Other]

  /** The name under which the alias is also accepted. */
  const ALIAS_NAME: string := "STREET_ADDRESS"

  /** The member's number (`.value`), as `auto()` assigns it. */
  function Number(p: PiiEnum): (n: nat)
    ensures 1 <= n <= |Members| && Members[n - 1] == p
  {
    match p
    case CreditCard => 1
    case BankAccount => 2
    case BlockchainAddress => 3
    case IpAddress => 4
    case EmailAddress => 5
    case Username => 6
    case PhoneNumber => 7
    case LicensePlate => 8
    case GovId => 9
    case Password => 10
    case Key => 11
    case Person => 12
    case Location => 13
    case Age => 14
    case Date => 15
    case Norp => 16
    case Medical => 17
    case Org => 18
    case Other => 19
  }

  /** The member's name (`.name`). */
  function Name(p: PiiEnum): (s: string)
    ensures s != ALIAS_NAME
  {
    match p
    case CreditCard => "CREDIT_CARD"
    case BankAccount => "BANK_ACCOUNT"
    case BlockchainAddress => "BLOCKCHAIN_ADDRESS"
    case IpAddress => "IP_ADDRESS"
    case EmailAddress => "EMAIL_ADDRESS"
    case Username => "USERNAME"
    case PhoneNumber => "PHONE_NUMBER"
    case LicensePlate => "LICENSE_PLATE"
    case GovId => "GOV_ID"
    case Password => "PASSWORD"
    case Key => "KEY"
    case Person => "PERSON"
    case Location => "LOCATION"
    case Age => "AGE"
    case Date => "DATE"
    case Norp => "NORP"
    case Medical => "MEDICAL"
    case Org => "ORG"
    case Other => "OTHER"
  }

  /** The member with a given number, `PiiEnum(n)`; None where Python raises
      ValueError. */
  function OfNumber(n: int): (r: Option<PiiEnum>)
    ensures r.Some? <==> 1 <= n <= |Members|
    ensures r.Some? ==> Number(r.value) == n
  {
    if 1 <= n <= |Members| then Some(Members[n - 1]) else None
  }

  /** The member with a given name, `PiiEnum[s]`, the alias included;
      None where Python raises KeyError. */
  function OfName(s: string): (r: Option<PiiEnum>)
    ensures r.Some? ==> Name(r.value) == s || (s == ALIAS_NAME && r.value == Location)
    ensures r.None? ==> s != ALIAS_NAME && forall p: PiiEnum :: Name(p) != s
  {
    if s == "CREDIT_CARD" then Some(CreditCard)
    else if s == "BANK_ACCOUNT" then Some(BankAccount)
    else if s == "BLOCKCHAIN_ADDRESS" then Some(BlockchainAddress)
    else if s == "IP_ADDRESS" then Some(IpAddress)
    else if s == "EMAIL_ADDRESS" then Some(EmailAddress)
    else if s == "USERNAME" then Some(Username)
    else if s == "PHONE_NUMBER" then Some(PhoneNumber)
    else if s == "LICENSE_PLATE" then Some(LicensePlate)
    else if s == "GOV_ID" then Some(GovId)
    else if s == "PASSWORD" then Some(Password)
    else if s == "KEY" then Some(Key)
    else if s == "PERSON" then Some(Person)
    else if s == "LOCATION" then Some(Location)
    else if s == "AGE" then Some(Age)
    else if s == "DATE" then Some(Date)
    else if s == "NORP" then Some(Norp)
    else if s == "MEDICAL" then Some(Medical)
    else if s == "ORG" then Some(Org)
    else if s == "OTHER" then Some(Other)
    else if s == ALIAS_NAME then Some(Location)
    else None
  }

  /** Every member is listed, once, at the index of its number. */
  lemma {:induction false} MembersNumbered()
    ensures |Members| == 19
    ensures forall k :: 0 <= k < |Members| ==> Number(Members[k]) == k + 1
    ensures forall p: PiiEnum :: p in Members
  {
    forall p: PiiEnum ensures p in Members {
      assert Members[Number(p) - 1] == p;
    }
  }

  lemma {:induction false} NameInjective(p: PiiEnum, q: PiiEnum)
    requires Name(p) == Name(q)
    ensures p == q
  {
    match p
    case CreditCard =>
    case BankAccount =>
    case BlockchainAddress =>
    case IpAddress =>
    case EmailAddress =>
    case Username =>
    case PhoneNumber =>
    case LicensePlate =>
    case GovId =>
    case Password =>
    case Key =>
    case Person =>
    case Location =>
    case Age =>
    case Date =>
    case Norp =>
    case Medical =>
    case Org =>
    case Other =>
  }

  /** Looking a member up by its name gives it back. */
  lemma {:induction false} OfNameRoundTrip(p: PiiEnum)
    ensures OfName(Name(p)) == Some(p)
  {
    var r := OfName(Name(p));
    if r.Some? {
      NameInjective(r.value, p);
    }
  }

  /** Lookup by number and lookup by name agree on every member. */
  lemma {:induction false} LookupsAgree(n: int)
    requires 1 <= n <= |Members|
    ensures OfNumber(n).Some?
    ensures OfName(Name(OfNumber(n).value)) == OfNumber(n)
  {
    OfNameRoundTrip(Members[n - 1]);
  }

  /** A name is accepted exactly when it is a member's name or the alias. */
  lemma {:induction false} OfNameAccepts(s: string)
    ensures OfName(s).Some? <==> (s == ALIAS_NAME || exists p: PiiEnum :: Name(p) == s)
  {
    if exists p: PiiEnum :: Name(p) == s {
      var p: PiiEnum :| Name(p) == s;
      OfNameRoundTrip(p);
    }
  }
}
