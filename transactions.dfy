/** The transactions table and its repository (backend/app/repositories/transaction_repo.py):
    a filtered, paged read whose WHERE clause is built one optional condition at a time, the
    total and fraud counts, create with duplicate-key detection, and delete by id. */
module Transactions {
  import opened Wrappers
  import opened Text

  /** A row, with the columns the repository names. Text columns may be NULL; dates are
      instants in seconds; amounts and distances are exact numbers. */
  datatype Transaction = Transaction(
    transactionId: string, customerId: Option<string>,
    country: Option<string>, city: Option<string>, merchantCategory: Option<string>,
    merchant: Option<string>, cardType: Option<string>, channel: Option<string>, device: Option<string>,
    cardPresent: int, distanceFromHome: real, highRiskMerchant: bool,
    date: int, amount: real, isFraud: bool)

  /** The text columns matched with ILIKE. */
  datatype TextColumn = Country | City | MerchantCategory | Merchant | CardType | Channel | Device

  function TextOf(t: Transaction, c: TextColumn): Option<string> {
    match c
    case Country => t.country
    case City => t.city
    case MerchantCategory => t.merchantCategory
    case Merchant => t.merchant
    case CardType => t.cardType
    case Channel => t.channel
    case Device => t.device
  }

  /** The pydantic TransactionFilter: every field optional, None by default. */
  datatype TransactionFilter = TransactionFilter(
    customerId: Option<string>, country: Option<string>, city: Option<string>, merchant: Option<string>,
    merchantCategory: Option<string>, cardType: Option<string>, cardPresent: Option<int>,
    channel: Option<string>, device: Option<string>, distanceFromHome: Option<int>,
    highRiskMerchant: Option<bool>, minAmount: Option<real>, maxAmount: Option<real>,
    startDate: Option<int>, endDate: Option<int>, isFraud: Option<bool>)

  const NoFilter: TransactionFilter :=
    TransactionFilter(None, None, None, None, None, None, None, None, None, None, None, None, None, None, None, None)

  /** The filter value for a text column. */
  function TextFilter(f: TransactionFilter, c: TextColumn): Option<string> {
    match c
    case Country => f.country
    case City => f.city
    case MerchantCategory => f.merchantCategory
    case Merchant => f.merchant
    case CardType => f.cardType
    case Channel => f.channel
    case Device => f.device
  }

  /** Python truthiness of the optional values: None, "", 0 and 0.0 are false; a datetime is
      always true. */
  predicate TruthyText(v: Option<string>) { v.Some? && v.value != "" }
  predicate TruthyInt(v: Option<int>) { v.Some? && v.value != 0 }
  predicate TruthyReal(v: Option<real>) { v.Some? && v.value != 0.0 }

  /** SQL LIKE with PostgreSQL's default escape character: '%' matches any run of characters,
      '_' exactly one, and a backslash makes the next pattern character literal. */
  predicate LikeMatch(s: string, p: string)
    decreases |p|, |s|
  {
    if p == [] then s == []
    else if p[0] == '%' then LikeMatch(s, p[1..]) || (s != [] && LikeMatch(s[1..], p))
    else if p[0] == '_' then s != [] && LikeMatch(s[1..], p[1..])
    else if p[0] == '\\' && |p| >= 2 then s != [] && s[0] == p[1] && LikeMatch(s[1..], p[2..])
    else s != [] && s[0] == p[0] && LikeMatch(s[1..], p[1..])
  }

  /** ILIKE: LIKE after case folding both sides. A NULL column never matches. */
  predicate ILike(col: Option<string>, p: string) {
    col.Some? && LikeMatch(AsciiLower(col.value), AsciiLower(p))
  }

  /** The f"%{value}%" pattern the repository builds for a text filter. */
  function Surround(x: string): string { "%" + x + "%" }

  /** A text filter value with no LIKE metacharacter in it. */
  predicate Plain(x: string) {
    forall i | 0 <= i < |x| :: x[i] != '%' && x[i] != '_' && x[i] != '\\'
  }

  /** The filter fields, as get_all_transactions tests them. */
  datatype Field =
    | CustomerId | Text(column: TextColumn) | CardPresent | DistanceFromHome | HighRiskMerchant
    | StartDate | EndDate | MinAmount | MaxAmount | IsFraud

  /** What one field of the filter demands of a row. Text and numeric fields are active when
      truthy; card_present, high_risk_merchant and is_fraud whenever they are given; the
      bounds are inclusive; text fields are ILIKE '%value%'. The date bounds are read on the
      row's time column, as intended; the source names an attribute the Transaction class
      lacks (see AsWrittenGetAll). */
  predicate FieldOk(f: TransactionFilter, fld: Field, t: Transaction) {
    match fld
    case CustomerId => TruthyText(f.customerId) ==> t.customerId == f.customerId
    case Text(c) => TruthyText(TextFilter(f, c)) ==> ILike(TextOf(t, c), Surround(TextFilter(f, c).value))
    case CardPresent => f.cardPresent.Some? ==> t.cardPresent == f.cardPresent.value
    case DistanceFromHome => TruthyInt(f.distanceFromHome) ==> t.distanceFromHome == f.distanceFromHome.value as real
    case HighRiskMerchant => f.highRiskMerchant.Some? ==> t.highRiskMerchant == f.highRiskMerchant.value
    case StartDate => f.startDate.Some? ==> t.date >= f.startDate.value
    case EndDate => f.endDate.Some? ==> t.date <= f.endDate.value
    case MinAmount => TruthyReal(f.minAmount) ==> t.amount >= f.minAmount.value
    case MaxAmount => TruthyReal(f.maxAmount) ==> t.amount <= f.maxAmount.value
    case IsFraud => f.isFraud.Some? ==> t.isFraud == f.isFraud.value
  }

  /** The reference meaning of a filter: every field's demand holds for the row. */
  ghost predicate Matches(f: TransactionFilter, t: Transaction) {
    forall fld: Field :: FieldOk(f, fld, t)
  }

  // ---------------------------------------------------------------------------------------
  // The statement, built one condition at a time

  /** One `.where(...)` condition. */
  datatype Condition =
    | CustomerIs(id: string)
    | ILikeOn(column: TextColumn, pattern: string)
    | CardPresentIs(v: int)
    | DistanceIs(d: int)
    | HighRiskIs(b: bool)
    | DateFrom(start: int)
    | DateTo(end: int)
    | AmountFrom(min: real)
    | AmountTo(max: real)
    | FraudIs(fraud: bool)

  /** What the database does with a condition on one row (SQL NULL counts as false). */
  predicate Holds(c: Condition, t: Transaction) {
    match c
    case CustomerIs(id) => t.customerId == Some(id)
    case ILikeOn(col, p) => ILike(TextOf(t, col), p)
    case CardPresentIs(v) => t.cardPresent == v
    case DistanceIs(d) => t.distanceFromHome == d as real
    case HighRiskIs(b) => t.highRiskMerchant == b
    case DateFrom(s) => t.date >= s
    case DateTo(e) => t.date <= e
    case AmountFrom(m) => t.amount >= m
    case AmountTo(m) => t.amount <= m
    case FraudIs(b) => t.isFraud == b
  }

  /** Successive .where() calls are joined with AND. */
  predicate Admits(cs: seq<Condition>, t: Transaction) {
    forall i | 0 <= i < |cs| :: Holds(cs[i], t)
  }

  /** The condition one field contributes to the statement, if any. */
  function Piece(f: TransactionFilter, fld: Field): seq<Condition> {
    match fld
    case CustomerId => if TruthyText(f.customerId) then [CustomerIs(f.customerId.value)] else []
    case Text(c) => if TruthyText(TextFilter(f, c)) then [ILikeOn(c, Surround(TextFilter(f, c).value))] else []
    case CardPresent => if f.cardPresent.Some? then [CardPresentIs(f.cardPresent.value)] else []
    case DistanceFromHome => if TruthyInt(f.distanceFromHome) then [DistanceIs(f.distanceFromHome.value)] else []
    case HighRiskMerchant => if f.highRiskMerchant.Some? then [HighRiskIs(f.highRiskMerchant.value)] else []
    case StartDate => if f.startDate.Some? then [DateFrom(f.startDate.value)] else []
    case EndDate => if f.endDate.Some? then [DateTo(f.endDate.value)] else []
    case MinAmount => if TruthyReal(f.minAmount) then [AmountFrom(f.minAmount.value)] else []
    case MaxAmount => if TruthyReal(f.maxAmount) then [AmountTo(f.maxAmount.value)] else []
    case IsFraud => if f.isFraud.Some? then [FraudIs(f.isFraud.value)] else []
  }

  /** Four consecutive fields' conditions. */
  function Quad(f: TransactionFilter, a: Field, b: Field, c: Field, d: Field): seq<Condition> {
    Piece(f, a) + Piece(f, b) + Piece(f, c) + Piece(f, d)
  }

  /** The conditions the statement collects, in the order the fields are tested. */
  function WhereClauses(f: TransactionFilter): seq<Condition> {
    Quad(f, CustomerId, Text(Country), Text(City), Text(MerchantCategory))
    + Quad(f, Text(Merchant), Text(CardType), CardPresent, Text(Channel))
    + Quad(f, Text(Device), DistanceFromHome, HighRiskMerchant, StartDate)
    + Quad(f, EndDate, MinAmount, MaxAmount, IsFraud)
  }

  lemma AdmitsConcat(a: seq<Condition>, b: seq<Condition>, t: Transaction)
    ensures Admits(a + b, t) <==> Admits(a, t) && Admits(b, t)
  {
    if Admits(a, t) && Admits(b, t) {
      forall i | 0 <= i < |a + b|
        ensures Holds((a + b)[i], t)
      {
        if i < |a| {
          assert (a + b)[i] == a[i];
        } else {
          assert (a + b)[i] == b[i - |a|];
        }
      }
    }
    if Admits(a + b, t) {
      forall i | 0 <= i < |a|
        ensures Holds(a[i], t)
      {
        assert (a + b)[i] == a[i];
      }
      forall i | 0 <= i < |b|
        ensures Holds(b[i], t)
      {
        assert (a + b)[|a| + i] == b[i];
      }
    }
  }

  /** A field's condition holds exactly when the field's demand does. */
  lemma PieceMeaning(f: TransactionFilter, fld: Field, t: Transaction)
    ensures Admits(Piece(f, fld), t) <==> FieldOk(f, fld, t)
  {
    if Piece(f, fld) != [] {
      assert Piece(f, fld) == [Piece(f, fld)[0]];
    }
  }

  lemma {:induction false} QuadMeaning(f: TransactionFilter, a: Field, b: Field, c: Field, d: Field, t: Transaction)
    ensures Admits(Quad(f, a, b, c, d), t) <==>
      FieldOk(f, a, t) && FieldOk(f, b, t) && FieldOk(f, c, t) && FieldOk(f, d, t)
  {
    AdmitsConcat(Piece(f, a) + Piece(f, b) + Piece(f, c), Piece(f, d), t);
    AdmitsConcat(Piece(f, a) + Piece(f, b), Piece(f, c), t);
    AdmitsConcat(Piece(f, a), Piece(f, b), t);
    PieceMeaning(f, a, t);
    PieceMeaning(f, b, t);
    PieceMeaning(f, c, t);
    PieceMeaning(f, d, t);
  }

  /** The statement's WHERE clause selects exactly the rows the filter means. */
  lemma {:induction false} WhereMeansMatches(f: TransactionFilter, t: Transaction)
    ensures Admits(WhereClauses(f), t) <==> Matches(f, t)
  {
    WhereFieldByField(f, t);
    if Admits(WhereClauses(f), t) {
      forall fld: Field ensures FieldOk(f, fld, t) {
        match fld
        case Text(c) => assert c == Country || c == City || c == MerchantCategory || c == Merchant
                         || c == CardType || c == Channel || c == Device;
        case _ =>
      }
    }
  }

  /** The WHERE clause admits a row when every field's condition does, field by field. */
  lemma WhereFieldByField(f: TransactionFilter, t: Transaction)
    ensures Admits(WhereClauses(f), t) <==>
      FieldOk(f, CustomerId, t) && FieldOk(f, Text(Country), t) && FieldOk(f, Text(City), t)
      && FieldOk(f, Text(MerchantCategory), t) && FieldOk(f, Text(Merchant), t) && FieldOk(f, Text(CardType), t)
      && FieldOk(f, CardPresent, t) && FieldOk(f, Text(Channel), t) && FieldOk(f, Text(Device), t)
      && FieldOk(f, DistanceFromHome, t) && FieldOk(f, HighRiskMerchant, t) && FieldOk(f, StartDate, t)
      && FieldOk(f, EndDate, t) && FieldOk(f, MinAmount, t) && FieldOk(f, MaxAmount, t) && FieldOk(f, IsFraud, t)
  {
    var q1 := Quad(f, CustomerId, Text(Country), Text(City), Text(MerchantCategory));
    var q2 := Quad(f, Text(Merchant), Text(CardType), CardPresent, Text(Channel));
    var q3 := Quad(f, Text(Device), DistanceFromHome, HighRiskMerchant, StartDate);
    var q4 := Quad(f, EndDate, MinAmount, MaxAmount, IsFraud);
    AdmitsConcat(q1 + q2 + q3, q4, t);
    AdmitsConcat(q1 + q2, q3, t);
    AdmitsConcat(q1, q2, t);
    QuadMeaning(f, CustomerId, Text(Country), Text(City), Text(MerchantCategory), t);
    QuadMeaning(f, Text(Merchant), Text(CardType), CardPresent, Text(Channel), t);
    QuadMeaning(f, Text(Device), DistanceFromHome, HighRiskMerchant, StartDate, t);
    QuadMeaning(f, EndDate, MinAmount, MaxAmount, IsFraud, t);
  }

  /** `if <field is active>: stmt = stmt.where(<its condition>)` for one field. */
  method AddCondition(stmt: seq<Condition>, f: TransactionFilter, fld: Field) returns (r: seq<Condition>)
    ensures r == stmt + Piece(f, fld)
  {
    r := stmt;
    match fld {
      case CustomerId =>
        if f.customerId.Some? && f.customerId.value != "" { r := r + [CustomerIs(f.customerId.value)]; }
      case Text(c) =>
        var v := TextFilter(f, c);
        if v.Some? && v.value != "" { r := r + [ILikeOn(c, "%" + v.value + "%")]; }
      case CardPresent =>
        if f.cardPresent.Some? { r := r + [CardPresentIs(f.cardPresent.value)]; }
      case DistanceFromHome =>
        if f.distanceFromHome.Some? && f.distanceFromHome.value != 0 { r := r + [DistanceIs(f.distanceFromHome.value)]; }
      case HighRiskMerchant =>
        if f.highRiskMerchant.Some? { r := r + [HighRiskIs(f.highRiskMerchant.value)]; }
      case StartDate =>
        if f.startDate.Some? { r := r + [DateFrom(f.startDate.value)]; }
      case EndDate =>
        if f.endDate.Some? { r := r + [DateTo(f.endDate.value)]; }
      case MinAmount =>
        if f.minAmount.Some? && f.minAmount.value != 0.0 { r := r + [AmountFrom(f.minAmount.value)]; }
      case MaxAmount =>
        if f.maxAmount.Some? && f.maxAmount.value != 0.0 { r := r + [AmountTo(f.maxAmount.value)]; }
      case IsFraud =>
        if f.isFraud.Some? { r := r + [FraudIs(f.isFraud.value)]; }
    }
  }

  lemma EmptyConcat<T>(q: seq<T>)
    ensures [] + q == q
  {
  }

  lemma ConcatFour<T>(s: seq<T>, a: seq<T>, b: seq<T>, c: seq<T>, d: seq<T>)
    ensures s + a + b + c + d == s + (a + b + c + d)
  {
  }

  /** Four consecutive `if` blocks of the statement builder. */
  method AddFour(stmt: seq<Condition>, f: TransactionFilter, a: Field, b: Field, c: Field, d: Field)
    returns (r: seq<Condition>)
    ensures r == stmt + Quad(f, a, b, c, d)
  {
    r := AddCondition(stmt, f, a);
    r := AddCondition(r, f, b);
    r := AddCondition(r, f, c);
    r := AddCondition(r, f, d);
    ConcatFour(stmt, Piece(f, a), Piece(f, b), Piece(f, c), Piece(f, d));
  }

  /** The statement of get_all_transactions, reassigned clause by clause in the order the
      fields are tested; it selects exactly the rows the filter means. */
  method BuildStatement(f: TransactionFilter) returns (stmt: seq<Condition>)
    ensures stmt == WhereClauses(f)
    ensures forall t :: Admits(stmt, t) <==> Matches(f, t)
  {
    stmt := AddFour([], f, CustomerId, Text(Country), Text(City), Text(MerchantCategory));
    ghost var q1 := Quad(f, CustomerId, Text(Country), Text(City), Text(MerchantCategory));
    assert stmt == q1 by { EmptyConcat(q1); }
    stmt := AddFour(stmt, f, Text(Merchant), Text(CardType), CardPresent, Text(Channel));
    stmt := AddFour(stmt, f, Text(Device), DistanceFromHome, HighRiskMerchant, StartDate);
    stmt := AddFour(stmt, f, EndDate, MinAmount, MaxAmount, IsFraud);
    forall t ensures Admits(stmt, t) <==> Matches(f, t) {
      WhereMeansMatches(f, t);
    }
  }

  // ---------------------------------------------------------------------------------------
  // LIKE '%x%' is a substring test when x holds no metacharacter

  lemma {:induction false} PercentMatchesAll(s: string)
    ensures LikeMatch(s, "%")
    decreases |s|
  {
    assert "%"[1..] == [];
    if s != [] {
      PercentMatchesAll(s[1..]);
    }
  }

  lemma {:induction false} PlainPrefix(t: string, x: string)
    requires Plain(x)
    ensures LikeMatch(t, x + "%") <==> |x| <= |t| && t[..|x|] == x
    decreases |x|
  {
    if x == [] {
      assert x + "%" == "%";
      PercentMatchesAll(t);
    } else {
      var p := x + "%";
      assert p[0] == x[0] && p[1..] == x[1..] + "%";
      PlainPrefix(if t == [] then t else t[1..], x[1..]);
      if t != [] && |x| <= |t| {
        assert t[..|x|] == [t[0]] + t[1..][..|x| - 1];
        assert x == [x[0]] + x[1..];
      }
    }
  }

  lemma {:induction false} LeadingPercent(s: string, q: string)
    ensures LikeMatch(s, "%" + q) <==> exists k | 0 <= k <= |s| :: LikeMatch(s[k..], q)
    decreases |s|
  {
    var p := "%" + q;
    assert p[0] == '%' && p[1..] == q;
    assert s[0..] == s;
    if s != [] {
      LeadingPercent(s[1..], q);
      if exists k | 0 <= k <= |s| :: LikeMatch(s[k..], q) {
        var k :| 0 <= k <= |s| && LikeMatch(s[k..], q);
        if k > 0 {
          assert s[1..][k - 1..] == s[k..];
        }
      }
      if exists j | 0 <= j <= |s| - 1 :: LikeMatch(s[1..][j..], q) {
        var j :| 0 <= j <= |s| - 1 && LikeMatch(s[1..][j..], q);
        assert s[1..][j..] == s[j + 1..];
      }
    }
  }

  /** For a metacharacter-free x, LIKE '%x%' holds exactly when x occurs in s. */
  lemma SurroundIsContains(s: string, x: string)
    requires Plain(x)
    ensures LikeMatch(s, Surround(x)) <==> Contains(s, x)
  {
    assert Surround(x) == "%" + (x + "%");
    LeadingPercent(s, x + "%");
    if LikeMatch(s, Surround(x)) {
      var k :| 0 <= k <= |s| && LikeMatch(s[k..], x + "%");
      PlainPrefix(s[k..], x);
      assert s[k..][..|x|] == s[k..k + |x|];
      assert OccursAt(x, s, k);
    }
    if Contains(s, x) {
      var k :| 0 <= k <= |s| - |x| && OccursAt(x, s, k);
      PlainPrefix(s[k..], x);
      assert s[k..][..|x|] == s[k..k + |x|];
    }
  }

  lemma LowerSurround(x: string)
    ensures AsciiLower(Surround(x)) == Surround(AsciiLower(x))
    ensures Plain(x) ==> Plain(AsciiLower(x))
  {
    var l := AsciiLower(Surround(x));
    assert |l| == |Surround(AsciiLower(x))|;
    forall i | 0 <= i < |l|
      ensures l[i] == Surround(AsciiLower(x))[i]
    {
      if 0 < i < |l| - 1 {
        assert Surround(x)[i] == x[i - 1];
      }
    }
  }

  /** A text filter without metacharacters is a case-insensitive substring test on a non-NULL
      column. */
  lemma TextFilterIsSubstring(col: Option<string>, x: string)
    requires Plain(x)
    ensures ILike(col, Surround(x)) <==> col.Some? && Contains(AsciiLower(col.value), AsciiLower(x))
  {
    LowerSurround(x);
    if col.Some? {
      SurroundIsContains(AsciiLower(col.value), AsciiLower(x));
    }
  }

  /** Falsy values switch a filter off: a zero distance, a zero minimum amount or an empty
      country leave the filter as if the field were not given. */
  lemma FalsyFiltersIgnored(f: TransactionFilter, t: Transaction)
    requires f.distanceFromHome == Some(0) && f.minAmount == Some(0.0) && f.country == Some("")
    ensures Matches(f, t) <==> Matches(f.(distanceFromHome := None, minAmount := None, country := None), t)
  {
    var g := f.(distanceFromHome := None, minAmount := None, country := None);
    assert forall fld: Field :: FieldOk(f, fld, t) == FieldOk(g, fld, t);
  }

  /** is_fraud, card_present and high_risk_merchant filter whenever they are given, False
      and 0 included: only the rows with that value pass. */
  lemma GivenValuesFilter(fraud: bool, present: int, risky: bool, t: Transaction)
    ensures Matches(NoFilter.(isFraud := Some(fraud)), t) <==> t.isFraud == fraud
    ensures Matches(NoFilter.(cardPresent := Some(present)), t) <==> t.cardPresent == present
    ensures Matches(NoFilter.(highRiskMerchant := Some(risky)), t) <==> t.highRiskMerchant == risky
  {
    assert FieldOk(NoFilter.(isFraud := Some(fraud)), IsFraud, t) <==> t.isFraud == fraud;
    assert FieldOk(NoFilter.(cardPresent := Some(present)), CardPresent, t) <==> t.cardPresent == present;
    assert FieldOk(NoFilter.(highRiskMerchant := Some(risky)), HighRiskMerchant, t) <==> t.highRiskMerchant == risky;
  }

  /** The empty filter admits every row. */
  lemma NoFilterAdmitsAll(t: Transaction)
    ensures Matches(NoFilter, t)
  {
  }

  // ---------------------------------------------------------------------------------------
  // Evaluation of a statement against the table

  /** The rows of `rows` the filter admits, in table order. */
  ghost function Selected(rows: seq<Transaction>, f: TransactionFilter): (r: seq<Transaction>)
    ensures |r| <= |rows|
    ensures forall t :: t in r <==> t in rows && Matches(f, t)
  {
    if rows == [] then []
    else (if Matches(f, rows[0]) then [rows[0]] else []) + Selected(rows[1..], f)
  }

  /** The rows the conditions admit, in table order: what the database returns. */
  function Execute(rows: seq<Transaction>, stmt: seq<Condition>): seq<Transaction> {
    if rows == [] then []
    else (if Admits(stmt, rows[0]) then [rows[0]] else []) + Execute(rows[1..], stmt)
  }

  lemma {:induction false} ExecuteSelects(rows: seq<Transaction>, stmt: seq<Condition>, f: TransactionFilter)
    requires forall t :: Admits(stmt, t) <==> Matches(f, t)
    ensures Execute(rows, stmt) == Selected(rows, f)
    decreases |rows|
  {
    if rows != [] {
      ExecuteSelects(rows[1..], stmt, f);
    }
  }

  /** .offset(skip).limit(limit) on a result of non-negative bounds. */
  function Page<T>(xs: seq<T>, skip: nat, limit: nat): (r: seq<T>)
    ensures |r| == if skip >= |xs| then 0 else if |xs| - skip < limit then |xs| - skip else limit
    ensures forall i | 0 <= i < |r| :: r[i] == xs[skip + i]
  {
    if skip >= |xs| then [] else
    var rest := xs[skip..];
    if |rest| < limit then rest else rest[..limit]
  }

  /** What the repository raises. Both exception classes take the exception's `name` first;
      a DatabaseException built from one text keeps the default `message`, and the error
      handler answers with the message. */
  datatype RepoError =
    | DatabaseException(name: string, message: string)
    | TransactionDuplicateError(name: string, message: string)

  /** The `message` of an exception built without one. */
  const DefaultMessage: string := "Transaction API Exception"

  const ReadFailed: string := "Erro ao aceder \U{00E0}s transa\U{00E7}\U{00F5}es na base de dados"
  const LookupFailed: string := "Erro ao aceder \U{00E0} transa\U{00E7}\U{00E3}o na base de dados"
  const CreateFailed: string := "Erro ao criar a transa\U{00E7}\U{00E3}o na base de dados"
  const DeleteFailed: string := "Erro ao remover a transa\U{00E7}\U{00E3}o na base de dados"
  const DuplicateName: string := "Transi\U{00E7}\U{00E3}o duplicada"
  const DuplicateMessage: string := "Transi\U{00E7}\U{00E3}o j\U{00E1} existe na base de dados;"
  const ConstraintDetail: string := " value violates unique constraint"

  /** `DatabaseException(text)`: the text becomes the name. */
  function Database(name: string): RepoError {
    DatabaseException(name, DefaultMessage)
  }

  /** The exception create_transaction raises for a database error text: the duplicate error
      exactly when the lower-cased text holds "duplicate key", otherwise a DatabaseException
      whose name is the creation failure and whose message is the default. */
  function CreateError(dbError: string): (e: RepoError)
    ensures e.TransactionDuplicateError? <==> Contains(AsciiLower(dbError), "duplicate key")
    ensures e.TransactionDuplicateError? ==> e.name == DuplicateName && e.message == DuplicateMessage
    ensures e.DatabaseException? ==> e.name == CreateFailed && e.message == DefaultMessage
  {
    if Contains(AsciiLower(dbError), "duplicate key") then TransactionDuplicateError(DuplicateName, DuplicateMessage)
    else Database(CreateFailed)
  }

  /** A database error text that begins with "duplicate key" classifies as a duplicate: the
      unique-constraint violation PostgreSQL reports is one. */
  lemma DuplicateKeyIsDuplicate(detail: string)
    ensures CreateError("duplicate key" + detail).TransactionDuplicateError?
  {
    var s := "duplicate key" + detail;
    var l := AsciiLower(s);
    forall i | 0 <= i < 13 ensures l[i] == s[i] {
      assert s[i] == "duplicate key"[i];
    }
    assert l[0..13] == "duplicate key";
    assert OccursAt("duplicate key", l, 0);
    assert Contains(l, "duplicate key");
  }

  function CountFrauds(rows: seq<Transaction>): (n: nat)
    ensures n <= |rows|
  {
    if rows == [] then 0 else (if rows[0].isFraud then 1 else 0) + CountFrauds(rows[1..])
  }

  /** The fraud count is the number of rows an is_fraud=True filter selects. */
  lemma {:induction false} FraudCountIsFraudSelection(rows: seq<Transaction>)
    ensures CountFrauds(rows) == |Selected(rows, NoFilter.(isFraud := Some(true)))|
    decreases |rows|
  {
    if rows != [] {
      FraudCountIsFraudSelection(rows[1..]);
      GivenValuesFilter(true, 0, false, rows[0]);
    }
  }

  /** The first row with the given id. */
  function FindById(rows: seq<Transaction>, id: string): (r: Option<Transaction>)
    ensures r.Some? <==> exists i | 0 <= i < |rows| :: rows[i].transactionId == id
    ensures r.Some? ==> r.value in rows && r.value.transactionId == id
  {
    if rows == [] then None
    else if rows[0].transactionId == id then Some(rows[0])
    else FindById(rows[1..], id)
  }

  /** The table without the rows of the given id, in order. */
  function Without(rows: seq<Transaction>, id: string): (r: seq<Transaction>)
    ensures forall t :: t in r <==> t in rows && t.transactionId != id
    ensures |r| <= |rows|
  {
    if rows == [] then []
    else (if rows[0].transactionId == id then [] else [rows[0]]) + Without(rows[1..], id)
  }

  predicate UniqueIds(rows: seq<Transaction>) {
    forall i, j | 0 <= i < j < |rows| :: rows[i].transactionId != rows[j].transactionId
  }

  lemma UniqueTail(rows: seq<Transaction>)
    requires rows != [] && UniqueIds(rows)
    ensures UniqueIds(rows[1..])
    ensures forall t | t in rows[1..] :: t.transactionId != rows[0].transactionId
  {
    forall i, j | 0 <= i < j < |rows[1..]| ensures rows[1..][i].transactionId != rows[1..][j].transactionId {
      assert rows[1..][i] == rows[i + 1] && rows[1..][j] == rows[j + 1];
    }
    forall t | t in rows[1..] ensures t.transactionId != rows[0].transactionId {
      var k :| 0 <= k < |rows[1..]| && rows[1..][k] == t;
      assert rows[1..][k] == rows[k + 1];
    }
  }

  lemma UniqueCons(t: Transaction, rest: seq<Transaction>)
    requires UniqueIds(rest) && forall u | u in rest :: u.transactionId != t.transactionId
    ensures UniqueIds([t] + rest)
  {
    forall i, j | 0 <= i < j < |[t] + rest|
      ensures ([t] + rest)[i].transactionId != ([t] + rest)[j].transactionId
    {
      assert ([t] + rest)[j] == rest[j - 1];
      if i > 0 {
        assert ([t] + rest)[i] == rest[i - 1];
      } else {
        assert rest[j - 1] in rest;
      }
    }
  }

  /** With unique ids, removing a present id removes exactly its row. */
  lemma {:induction false} WithoutOne(rows: seq<Transaction>, id: string)
    requires UniqueIds(rows)
    ensures FindById(rows, id).Some? ==> |Without(rows, id)| == |rows| - 1
    ensures FindById(rows, id).None? ==> Without(rows, id) == rows
    ensures UniqueIds(Without(rows, id))
    decreases |rows|
  {
    if rows != [] {
      UniqueTail(rows);
      WithoutOne(rows[1..], id);
      if rows[0].transactionId == id {
        assert FindById(rows[1..], id).None?;
      } else {
        WithoutPast(rows, id);
      }
    }
  }

  /** The step of WithoutOne past a row that keeps its place. */
  lemma WithoutPast(rows: seq<Transaction>, id: string)
    requires rows != [] && rows[0].transactionId != id
    requires forall t | t in rows[1..] :: t.transactionId != rows[0].transactionId
    requires FindById(rows[1..], id).Some? ==> |Without(rows[1..], id)| == |rows| - 2
    requires FindById(rows[1..], id).None? ==> Without(rows[1..], id) == rows[1..]
    requires UniqueIds(Without(rows[1..], id))
    ensures FindById(rows, id).Some? ==> |Without(rows, id)| == |rows| - 1
    ensures FindById(rows, id).None? ==> Without(rows, id) == rows
    ensures UniqueIds(Without(rows, id))
  {
    var rest := Without(rows[1..], id);
    assert Without(rows, id) == [rows[0]] + rest;
    assert FindById(rows, id) == FindById(rows[1..], id);
    UniqueCons(rows[0], rest);
    if FindById(rows, id).None? {
      assert rows == [rows[0]] + rows[1..];
    }
  }

  // ---------------------------------------------------------------------------------------
  // get_all_transactions as written: the date bounds name a column the model class lacks

  /** What escapes get_all_transactions: an AttributeError, which `except SQLAlchemyError`
      does not catch, or the repository's own exception. */
  datatype ReadError = AttributeError(attribute: string) | Raised(error: RepoError)

  /** get_all_transactions as written. The date bounds compare `Transaction.date`, an
      attribute the Transaction class does not declare, so a given start_date or end_date
      raises AttributeError while the statement is being built, before any query runs. */
  function AsWrittenGetAll(rows: seq<Transaction>, filters: TransactionFilter, limit: int, skip: int,
                           dbFailure: bool): Result<seq<Transaction>, ReadError>
  {
    if filters.startDate.Some? || filters.endDate.Some? then Failure(AttributeError("date"))
    else if dbFailure || skip < 0 || limit < 0 then Failure(Raised(Database(ReadFailed)))
    else Success(Page(Execute(rows, WhereClauses(filters)), skip, limit))
  }

  /** As written, any date bound makes the read raise AttributeError whatever the table holds;
      without one the read answers what the corrected read answers. */
  lemma AsWrittenDateBoundRaises(rows: seq<Transaction>, filters: TransactionFilter, limit: int, skip: int,
                                 dbFailure: bool)
    ensures var r := AsWrittenGetAll(rows, filters, limit, skip, dbFailure);
      (r == Failure(AttributeError("date")) <==> filters.startDate.Some? || filters.endDate.Some?)
      && (filters.startDate.None? && filters.endDate.None? ==>
            (r.Failure? <==> dbFailure || skip < 0 || limit < 0)
            && (r.Failure? ==> r.error == Raised(DatabaseException(ReadFailed, DefaultMessage)))
            && (r.Success? ==> r.value == Page(Selected(rows, filters), skip, limit)))
  {
    forall t ensures Admits(WhereClauses(filters), t) <==> Matches(filters, t) {
      WhereMeansMatches(filters, t);
    }
    ExecuteSelects(rows, WhereClauses(filters), filters);
  }

  /** The repository over the transactions table. */
  class TransactionRepository {
    /** The table, in storage order. */
    var rows: seq<Transaction>

    /** transaction_id is unique: create refuses a duplicate key. */
    predicate Valid()
      reads this
    {
      UniqueIds(rows)
    }

    constructor(initial: seq<Transaction>)
      requires UniqueIds(initial)
      ensures rows == initial && Valid()
    {
      rows := initial;
    }

    /** get_transaction_count: the total and fraud counts, fraud never above total. */
    method GetTransactionCount() returns (total: nat, frauds: nat)
      ensures total == |rows| && frauds == CountFrauds(rows)
      ensures frauds <= total
      ensures frauds == |Selected(rows, NoFilter.(isFraud := Some(true)))|
    {
      total := |rows|;
      frauds := CountFrauds(rows);
      FraudCountIsFraudSelection(rows);
    }

    /** get_all_transactions with the date bounds on the row's time column: the rows every
        active filter admits, in table order, then `skip` rows skipped and at most `limit`
        kept. A failing query, and PostgreSQL's refusal of a negative OFFSET or LIMIT, are
        caught and raised as a DatabaseException whose message is the default. */
    method GetAllTransactions(filters: TransactionFilter, limit: int, skip: int, dbFailure: bool)
      returns (r: Result<seq<Transaction>, RepoError>)
      ensures r.Failure? <==> dbFailure || skip < 0 || limit < 0
      ensures r.Failure? ==> r.error == DatabaseException(ReadFailed, DefaultMessage)
      ensures r.Success? ==> r.value == Page(Selected(rows, filters), skip, limit)
      ensures r.Success? ==> forall t | t in r.value :: t in rows && Matches(filters, t)
    {
      var stmt := BuildStatement(filters);
      if dbFailure || skip < 0 || limit < 0 {
        return Failure(Database(ReadFailed));
      }
      ExecuteSelects(rows, stmt, filters);
      var result := Execute(rows, stmt);
      r := Success(Page(result, skip, limit));
    }

    /** get_transaction_id: the row with that id, or None; a failing query raises a
        DatabaseException whose message is the default. */
    method GetTransactionId(id: string, dbFailure: bool) returns (r: Result<Option<Transaction>, RepoError>)
      ensures r.Failure? <==> dbFailure
      ensures r.Failure? ==> r.error == DatabaseException(LookupFailed, DefaultMessage)
      ensures r.Success? ==> r.value == FindById(rows, id)
      ensures r.Success? && r.value.Some? ==> r.value.value in rows && r.value.value.transactionId == id
      ensures r.Success? ==> (r.value.None? <==> forall t | t in rows :: t.transactionId != id)
    {
      if dbFailure {
        return Failure(Database(LookupFailed));
      }
      r := Success(FindById(rows, id));
    }

    /** create_transaction: an id already present violates the unique key and raises the
        duplicate error; any other database failure (its text given) raises the error its
        text classifies to; either way the session is rolled back. */
    method CreateTransaction(t: Transaction, dbFailure: Option<string>) returns (r: Result<Transaction, RepoError>)
      requires Valid()
      modifies this
      ensures Valid()
      ensures r.Success? <==> FindById(old(rows), t.transactionId).None? && dbFailure.None?
      ensures r.Success? ==> r.value == t && rows == old(rows) + [t]
      ensures r.Failure? ==> rows == old(rows)
      ensures FindById(old(rows), t.transactionId).Some? ==> r.Failure? && r.error.TransactionDuplicateError?
      ensures FindById(old(rows), t.transactionId).None? && dbFailure.Some? ==> r == Failure(CreateError(dbFailure.value))
    {
      if FindById(rows, t.transactionId).Some? {
        DuplicateKeyIsDuplicate(ConstraintDetail);
        return Failure(CreateError("duplicate key" + ConstraintDetail));
      }
      if dbFailure.Some? {
        return Failure(CreateError(dbFailure.value));
      }
      rows := rows + [t];
      assert UniqueIds(rows) by {
        forall i, j | 0 <= i < j < |rows| ensures rows[i].transactionId != rows[j].transactionId {
          if j == |rows| - 1 {
            assert rows[i] == old(rows)[i];
          } else {
            assert rows[i] == old(rows)[i] && rows[j] == old(rows)[j];
          }
        }
      }
      r := Success(t);
    }

    /** delete_transaction: look the row up (a failing lookup raises its own DatabaseException,
        which the delete's handler does not catch); when it is absent answer None and change
        nothing; otherwise delete exactly that row and return it, or, when the delete fails,
        roll back and raise the deletion's DatabaseException. */
    method DeleteTransaction(id: string, lookupFailure: bool, deleteFailure: bool)
      returns (r: Result<Option<Transaction>, RepoError>)
      requires Valid()
      modifies this
      ensures Valid()
      ensures lookupFailure ==> r == Failure(DatabaseException(LookupFailed, DefaultMessage)) && rows == old(rows)
      ensures !lookupFailure && FindById(old(rows), id).None? ==> r == Success(None) && rows == old(rows)
      ensures !lookupFailure && FindById(old(rows), id).Some? && deleteFailure ==>
        r == Failure(DatabaseException(DeleteFailed, DefaultMessage)) && rows == old(rows)
      ensures !lookupFailure && FindById(old(rows), id).Some? && !deleteFailure ==>
        r == Success(FindById(old(rows), id)) && rows == Without(old(rows), id)
        && |rows| == |old(rows)| - 1 && r.value.value !in rows
    {
      r := GetTransactionId(id, lookupFailure);
      if r.Failure? || r.value.None? {
        return;
      }
      if deleteFailure {
        return Failure(Database(DeleteFailed));
      }
      WithoutOne(rows, id);
      rows := Without(rows, id);
    }
  }
}
