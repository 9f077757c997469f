/** The string keys that decide when a page resource reloads. */
module PageKeys {
  import opened Wrappers
  import opened JsNumber

  datatype Kind = Summary | Analysis | Decision | Cashflows | Compare | Rebalance | Coverage

  /** What a resource's loader asks for, and the server time at which it asks. */
  datatype Request = Request(portfolio: Option<Id>, isUser: bool, version: nat, issuedAt: nat)

  function IdText(id: Option<Id>): string {
    match id case None => "null" case Some(n) => Decimal(n)
  }

  function BoolText(b: bool): string { if b then "true" else "false" }

  function Name(kind: Kind): string {
    match kind
    case Summary => "summary" case Analysis => "analysis" case Decision => "decision"
    case Cashflows => "cashflows" case Compare => "compare" case Rebalance => "rebalance"
    case Coverage => "coverage"
  }

  function KeyOf(kind: Kind, r: Request): string {
    match kind
    case Summary => Join(Name(kind), Join(IdText(r.portfolio), Join(BoolText(r.isUser), Digits(r.version))))
    case Coverage => Join(Name(kind), Digits(r.version))
    case _ => Join(Name(kind), Join(IdText(r.portfolio), Digits(r.version)))
  }

  function Join(a: string, rest: string): string {
    a + ":" + rest
  }

  lemma SplitAtColon(a: string, rest: string, b: string, rest': string)
    requires Join(a, rest) == Join(b, rest')
    requires ':' !in a && ':' !in b
    ensures a == b && rest == rest'
  {
    var s := a + ":" + rest;
    assert s[|a|] == ':' && (b + ":" + rest')[|b|] == ':';
    assert |a| == |b|;
    assert s[..|a|] == a && (b + ":" + rest')[..|b|] == b;
    assert s[|a| + 1..] == rest && (b + ":" + rest')[|b| + 1..] == rest';
  }

  lemma IdTextPlain(id: Option<Id>)
    ensures ':' !in IdText(id)
  {
  }

  lemma DecimalNotNull(n: int)
    ensures Decimal(n) != "null"
  {
    DigitsPlain(if n < 0 then -n else n);
    assert Decimal(n)[0] != "null"[0];
  }

  lemma IdTextInjective(a: Option<Id>, b: Option<Id>)
    requires IdText(a) == IdText(b)
    ensures a == b
  {
    hide ToNumber;
    if a.Some? && b.Some? {
      DecimalInjective(a.value, b.value);
    } else if a.Some? {
      DecimalNotNull(a.value);
    } else if b.Some? {
      DecimalNotNull(b.value);
    }
  }

  lemma DigitsInjective(a: nat, b: nat)
    requires Digits(a) == Digits(b)
    ensures a == b
  {
    DigitsRead(a);
    DigitsRead(b);
  }

  /** A resource's key determines everything its loader depends on. */
  lemma KeysInjective(kind: Kind, a: Request, b: Request)
    requires KeyOf(kind, a) == KeyOf(kind, b)
    ensures a.version == b.version
    ensures kind != Coverage ==> a.portfolio == b.portfolio
    ensures kind == Summary ==> a.isUser == b.isUser
  {
    hide IdText;
    hide Digits;
    hide Join;
    var va, vb, ia, ib := Digits(a.version), Digits(b.version), IdText(a.portfolio), IdText(b.portfolio);
    IdTextPlain(a.portfolio);
    IdTextPlain(b.portfolio);
    match kind {
      case Coverage =>
        SplitAtColon(Name(kind), va, Name(kind), vb);
      case Summary =>
        var ta, tb := Join(BoolText(a.isUser), va), Join(BoolText(b.isUser), vb);
        SplitAtColon(Name(kind), Join(ia, ta), Name(kind), Join(ib, tb));
        SplitAtColon(ia, ta, ib, tb);
        SplitAtColon(BoolText(a.isUser), va, BoolText(b.isUser), vb);
        IdTextInjective(a.portfolio, b.portfolio);
      case _ =>
        SplitAtColon(Name(kind), Join(ia, va), Name(kind), Join(ib, vb));
        SplitAtColon(ia, va, ib, vb);
        IdTextInjective(a.portfolio, b.portfolio);
    }
    DigitsInjective(a.version, b.version);
  }
}
