/**
 * The cards held by cmd/server and what its handlers do to the table of
 * them, stated on values: the draws of a new card, the first-match updates of
 * loadHandler and patch, the guarded append of create and the last-match
 * lookup of me and getCard. The handlers in module Server are proved to
 * rewrite their table exactly as these functions say.
 */
module CardTable {
  import opened Wrappers
  import opened GoText
  import opened Utils
  import Jwt

  const Int64Min: int := -0x8000_0000_0000_0000
  const Int64Max: int := 0x7FFF_FFFF_FFFF_FFFF
  const Int64Modulus: int := 0x1_0000_0000_0000_0000

  /** Go's int64. */
  type Int64 = i: int | Int64Min <= i <= Int64Max

  /**
   * `a + b` on int64: the exact sum when it fits, and otherwise the one
   * value of int64 that agrees with it modulo 2^64 (two's-complement wrap).
   */
  function AddInt64(a: Int64, b: Int64): (r: Int64)
    ensures Int64Min <= a + b <= Int64Max ==> r == a + b
    ensures (a + b - r) % Int64Modulus == 0
  {
    var s := a as int + b as int;
    if s > Int64Max then s - Int64Modulus
    else if s < Int64Min then s + Int64Modulus
    else s
  }

  /** time.Time{}: January 1 of year 1, 00:00 UTC, in nanoseconds since the Unix epoch. */
  const ZeroTime: Jwt.Time := -62135596800 * Jwt.Second

  /**
   * The user of a create request: first name, last name and e-mail name as
   * declared, and the e-mail that create compares.
   */
  datatype User = User(firstName: string, lastName: string, emailName: string, email: string)

  const ZeroUser: User := User("", "", "", "")

  /** A card record, with the fields the handlers read and write. */
  datatype CardValue = CardValue(
    id: string,
    user: User,
    nameOnCard: string,
    pan: string,
    realPAN: string,
    referenceID: string,
    expDate: string,
    realExpDate: string,
    cvv: string,
    balance: Int64,
    createdAt: Jwt.Time,
    updatedAt: Jwt.Time)

  /** &card{}: every field at its zero value. */
  const ZeroCard: CardValue := CardValue("", ZeroUser, "", "", "", "", "", "", "", 0, ZeroTime, ZeroTime)

  /** SetNameOnCard: "<first name> <last name>". */
  function NameOnCard(u: User): (r: string)
    ensures |r| == |u.firstName| + 1 + |u.lastName|
    ensures r[..|u.firstName|] == u.firstName && r[|u.firstName|] == ' ' && r[|u.firstName| + 1..] == u.lastName
  {
    u.firstName + " " + u.lastName
  }

  /** "MM/YY" with MM in 01..12 and YY in 19..23. */
  predicate ExpDateWellFormed(s: string) {
    && |s| == 5 && s[2] == '/'
    && AllDigits(s[..2]) && 1 <= TwoDigitValue(s[..2]) <= 12
    && AllDigits(s[3..]) && 19 <= TwoDigitValue(s[3..]) <= 23
  }

  /** SetExpDate: the picked month and year, separated by '/'. */
  function ExpDate(month: nat, year: nat): (r: string)
    requires month < |Months| && year < |Years|
    ensures ExpDateWellFormed(r)
    ensures TwoDigitValue(r[..2]) == month + 1 && TwoDigitValue(r[3..]) == 19 + year
  {
    var r := PickMonth(month) + "/" + PickYear(year);
    assert r[..2] == PickMonth(month) && r[3..] == PickYear(year);
    r
  }

  /** Every random draw newCard makes: 16 PAN digits, a month, a year and 8 reference digits. */
  datatype CardDraws = CardDraws(pan: seq<nat>, month: nat, year: nat, reference: seq<nat>)

  predicate ValidDraws(d: CardDraws) {
    && |d.pan| == 16 && DrawsFit(d.pan, |Numbers|)
    && d.month < |Months| && d.year < |Years|
    && |d.reference| == 8 && DrawsFit(d.reference, |Numbers|)
  }

  /** The properties every card made by newCard has, whatever the draws. */
  predicate FreshlyGenerated(c: CardValue, u: User, now: Jwt.Time) {
    && c.nameOnCard == NameOnCard(u)
    && |c.pan| == 16 && AllDigits(c.pan)
    && ExpDateWellFormed(c.expDate)
    && |c.referenceID| == 8 && AllDigits(c.referenceID)
    && c.balance == 0
    && c.createdAt == now
  }

  /**
   * newCard as written: the setters fill name, PAN, expiry date, reference
   * and balance, CreatedAt is now; every other field (User among them) keeps
   * its zero value.
   */
  function NewCardValue(u: User, d: CardDraws, now: Jwt.Time): (c: CardValue)
    requires ValidDraws(d)
    ensures FreshlyGenerated(c, u, now)
    ensures c.user == ZeroUser && c.id == "" && c.realPAN == "" && c.cvv == "" && c.updatedAt == ZeroTime
  {
    SpellNumbersIsDigits(d.pan);
    SpellNumbersIsDigits(d.reference);
    ZeroCard.(
      nameOnCard := NameOnCard(u),
      pan := Spell(Numbers, d.pan),
      expDate := ExpDate(d.month, d.year),
      referenceID := Spell(Numbers, d.reference),
      balance := 0,
      createdAt := now)
  }

  /** newCard with the request's user recorded on the card, as create's e-mail guard expects. */
  function NewCardValueForUser(u: User, d: CardDraws, now: Jwt.Time): (c: CardValue)
    requires ValidDraws(d)
    ensures FreshlyGenerated(c, u, now)
    ensures c.user == u
    ensures c == NewCardValue(u, d, now).(user := u)
  {
    NewCardValue(u, d, now).(user := u)
  }

  /** The two searches of the handlers: by ID (me, getCard, patch) and by ReferenceID (loadHandler). */
  datatype Key = ById(id: string) | ByReference(referenceID: string)

  predicate Matches(c: CardValue, k: Key) {
    match k
    case ById(id) => c.id == id
    case ByReference(ref) => c.referenceID == ref
  }

  /** The index a loop with `break` stops at: the first matching card. */
  function FirstMatch(t: seq<CardValue>, k: Key): (r: Option<nat>)
    ensures r.Some? ==> r.value < |t| && Matches(t[r.value], k)
    ensures r.Some? ==> forall j :: 0 <= j < r.value ==> !Matches(t[j], k)
    ensures r.None? <==> forall j :: 0 <= j < |t| ==> !Matches(t[j], k)
  {
    if |t| == 0 then None
    else if Matches(t[0], k) then Some(0)
    else
      match FirstMatch(t[1..], k)
      case None => None
      case Some(i) => Some(i + 1)
  }

  /** The card a loop without `break` keeps: the last matching one. */
  function LastMatch(t: seq<CardValue>, k: Key): (r: Option<nat>)
    ensures r.Some? ==> r.value < |t| && Matches(t[r.value], k)
    ensures r.Some? ==> forall j :: r.value < j < |t| ==> !Matches(t[j], k)
    ensures r.None? <==> forall j :: 0 <= j < |t| ==> !Matches(t[j], k)
  {
    if |t| == 0 then None
    else if Matches(t[|t| - 1], k) then Some(|t| - 1)
    else LastMatch(t[..|t| - 1], k)
  }

  /** The card me and getCard select for a user ID, or nil. */
  function CardOfUser(t: seq<CardValue>, userID: string): (r: Option<CardValue>)
    ensures r.None? <==> forall j :: 0 <= j < |t| ==> t[j].id != userID
    ensures r.Some? ==>
      exists i :: 0 <= i < |t| && r.value == t[i] && t[i].id == userID &&
        (forall j :: i < j < |t| ==> t[j].id != userID)
  {
    match LastMatch(t, ById(userID))
    case None => None
    case Some(i) => Some(t[i])
  }

  /** The body of a load request. */
  datatype LoadRequest = LoadRequest(referenceID: string, amount: Int64)

  /**
   * loadHandler on the table: the first card with the reference, and only
   * it, has the amount added to its balance (int64 arithmetic); the
   * updated card is returned. No match leaves the table as it is.
   */
  function LoadTable(t: seq<CardValue>, req: LoadRequest): (r: (seq<CardValue>, Option<CardValue>))
    ensures |r.0| == |t|
    ensures r.1.None? <==> forall j :: 0 <= j < |t| ==> t[j].referenceID != req.referenceID
    ensures r.1.None? ==> r.0 == t
    ensures r.1.Some? ==> exists i :: 0 <= i < |t| && IsLoadAt(t, req, r.0, i) && r.1.value == r.0[i]
  {
    match FirstMatch(t, ByReference(req.referenceID))
    case None => (t, None)
    case Some(i) =>
      var c := t[i].(balance := AddInt64(t[i].balance, req.amount));
      assert IsLoadAt(t, req, t[i := c], i);
      (t[i := c], Some(c))
  }

  /** Card i is the first with the reference; it gained the amount and nothing else changed. */
  predicate IsLoadAt(t: seq<CardValue>, req: LoadRequest, t': seq<CardValue>, i: int)
  {
    && 0 <= i < |t| == |t'|
    && t[i].referenceID == req.referenceID
    && (forall j :: 0 <= j < i ==> t[j].referenceID != req.referenceID)
    && t'[i] == t[i].(balance := AddInt64(t[i].balance, req.amount))
    && (forall j :: 0 <= j < |t| && j != i ==> t'[j] == t[j])
  }

  /** The sum of all balances, as a mathematical integer. */
  function Total(t: seq<CardValue>): int {
    if |t| == 0 then 0 else Total(t[..|t| - 1]) + t[|t| - 1].balance
  }

  /** Replacing one card changes the total by the difference of the two balances. */
  lemma {:induction false} TotalUpdate(t: seq<CardValue>, i: nat, c: CardValue)
    requires i < |t|
    ensures Total(t[i := c]) == Total(t) - t[i].balance + c.balance
    decreases |t|
  {
    var t' := t[i := c];
    if i == |t| - 1 {
      assert t'[..|t'| - 1] == t[..|t| - 1];
    } else {
      assert t'[..|t'| - 1] == t[..|t| - 1][i := c];
      TotalUpdate(t[..|t| - 1], i, c);
    }
  }

  /**
   * A load that finds its card and does not overflow raises the total of all
   * balances by exactly the amount; a load that finds none leaves the total.
   */
  lemma LoadTotal(t: seq<CardValue>, req: LoadRequest)
    ensures LoadTable(t, req).1.None? ==> Total(LoadTable(t, req).0) == Total(t)
    ensures (forall j :: 0 <= j < |t| ==> Int64Min <= t[j].balance + req.amount <= Int64Max) ==>
      LoadTable(t, req).1.Some? ==> Total(LoadTable(t, req).0) == Total(t) + req.amount
  {
    match FirstMatch(t, ByReference(req.referenceID))
    case None =>
    case Some(i) =>
      TotalUpdate(t, i, t[i].(balance := AddInt64(t[i].balance, req.amount)));
  }

  /** The body of a patch request. */
  datatype PatchRequest = PatchRequest(cardNumber: string, expDate: string, cvv: string, referenceID: string)

  /** What patch writes on the card it finds. */
  function Patched(c: CardValue, p: PatchRequest, now: Jwt.Time): CardValue {
    c.(pan := p.cardNumber, expDate := p.expDate, cvv := p.cvv, referenceID := p.referenceID, updatedAt := now)
  }

  /**
   * patch on the table: on the first card with the ID, PAN, expiry date,
   * CVV and reference become the request's and UpdatedAt becomes now;
   * every other field and every other card stays. No match changes nothing.
   */
  function PatchTable(t: seq<CardValue>, id: string, p: PatchRequest, now: Jwt.Time): (r: (seq<CardValue>, Option<CardValue>))
    ensures |r.0| == |t|
    ensures r.1.None? <==> forall j :: 0 <= j < |t| ==> t[j].id != id
    ensures r.1.None? ==> r.0 == t
    ensures r.1.Some? ==> exists i :: 0 <= i < |t| && IsPatchAt(t, id, p, now, r.0, i) && r.1.value == r.0[i]
  {
    match FirstMatch(t, ById(id))
    case None => (t, None)
    case Some(i) =>
      var c := Patched(t[i], p, now);
      assert IsPatchAt(t, id, p, now, t[i := c], i);
      (t[i := c], Some(c))
  }

  /** Card i is the first with the ID; it carries the patch and nothing else changed. */
  predicate IsPatchAt(t: seq<CardValue>, id: string, p: PatchRequest, now: Jwt.Time, t': seq<CardValue>, i: int)
  {
    && 0 <= i < |t| == |t'|
    && t[i].id == id
    && (forall j :: 0 <= j < i ==> t[j].id != id)
    && t'[i].pan == p.cardNumber && t'[i].expDate == p.expDate
    && t'[i].cvv == p.cvv && t'[i].referenceID == p.referenceID && t'[i].updatedAt == now
    && t'[i].id == t[i].id && t'[i].user == t[i].user && t'[i].nameOnCard == t[i].nameOnCard
    && t'[i].realPAN == t[i].realPAN && t'[i].realExpDate == t[i].realExpDate
    && t'[i].balance == t[i].balance && t'[i].createdAt == t[i].createdAt
    && (forall j :: 0 <= j < |t| && j != i ==> t'[j] == t[j])
  }

  /** Repeating the same patch at the same instant changes nothing more: patch is idempotent. */
  lemma PatchIdempotent(t: seq<CardValue>, id: string, p: PatchRequest, now: Jwt.Time)
    ensures PatchTable(PatchTable(t, id, p, now).0, id, p, now) == PatchTable(t, id, p, now)
  {
    var r := PatchTable(t, id, p, now);
    match FirstMatch(t, ById(id))
    case None =>
    case Some(i) =>
      var t1 := r.0;
      assert t1 == t[i := Patched(t[i], p, now)];
      assert forall j :: 0 <= j < |t1| ==> (t1[j].id == id <==> t[j].id == id);
      var i' := FirstMatch(t1, ById(id));
      assert i'.Some? && i'.value == i by {
        assert Matches(t1[i], ById(id));
        assert forall j :: 0 <= j < i ==> !Matches(t1[j], ById(id));
        FirstMatchUnique(t1, ById(id), i);
      }
      assert Patched(t1[i], p, now) == t1[i];
      assert t1[i := t1[i]] == t1;
  }

  /** The first match is the index that matches with no match before it. */
  lemma FirstMatchUnique(t: seq<CardValue>, k: Key, i: nat)
    requires i < |t| && Matches(t[i], k)
    requires forall j :: 0 <= j < i ==> !Matches(t[j], k)
    ensures FirstMatch(t, k) == Some(i)
  {
  }

  /** An e-mail some card's user already has. */
  predicate EmailTaken(t: seq<CardValue>, email: string) {
    exists j :: 0 <= j < |t| && t[j].user.email == email
  }

  /** No two cards belong to users with the same e-mail. */
  predicate EmailsUnique(t: seq<CardValue>) {
    forall i, j :: 0 <= i < j < |t| ==> t[i].user.email != t[j].user.email
  }

  const ErrUserHasCard: string := "user already have a card"
  const ErrSomethingWrong: string := "Something went wrong"

  /**
   * create after the body is read: an e-mail some card has is refused,
   * then randomError may fail; otherwise the card is appended and returned.
   * Either failure leaves the table as it was.
   */
  function CreateWith(t: seq<CardValue>, u: User, c: CardValue, randomFails: bool)
    : (r: Result<(seq<CardValue>, CardValue), string>)
    ensures r.Success? <==> !EmailTaken(t, u.email) && !randomFails
    ensures EmailTaken(t, u.email) ==> r == Failure(ErrUserHasCard)
    ensures !EmailTaken(t, u.email) && randomFails ==> r == Failure(ErrSomethingWrong)
    ensures r.Success? ==> r.value.1 == c && |r.value.0| == |t| + 1
    ensures r.Success? ==> r.value.0[..|t|] == t && r.value.0[|t|] == c
  {
    if EmailTaken(t, u.email) then Failure(ErrUserHasCard)
    else if randomFails then Failure(ErrSomethingWrong)
    else
      assert (t + [c])[..|t|] == t;
      Success((t + [c], c))
  }

  /** create as written: the appended card comes from newCard, whose User is never set. */
  function CreateTableAsWritten(t: seq<CardValue>, u: User, d: CardDraws, randomFails: bool, now: Jwt.Time)
    : (r: Result<(seq<CardValue>, CardValue), string>)
    requires ValidDraws(d)
    ensures r.Success? ==> r.value.1.user == ZeroUser && FreshlyGenerated(r.value.1, u, now)
    ensures r.Success? ==> r.value.0 == t + [r.value.1]
  {
    var r := CreateWith(t, u, NewCardValue(u, d, now), randomFails);
    assert r.Success? ==> r.value.0 == r.value.0[..|t|] + [r.value.0[|t|]];
    r
  }

  /** The evidently intended create: the appended card records the request's user. */
  function CreateTable(t: seq<CardValue>, u: User, d: CardDraws, randomFails: bool, now: Jwt.Time)
    : (r: Result<(seq<CardValue>, CardValue), string>)
    requires ValidDraws(d)
    ensures r.Success? ==> r.value.1.user == u && FreshlyGenerated(r.value.1, u, now)
    ensures r.Success? ==> r.value.0 == t + [r.value.1]
  {
    var r := CreateWith(t, u, NewCardValueForUser(u, d, now), randomFails);
    assert r.Success? ==> r.value.0 == r.value.0[..|t|] + [r.value.0[|t|]];
    r
  }

  /** With the user recorded, create keeps the e-mails of all card holders distinct. */
  lemma CreateKeepsEmailsUnique(t: seq<CardValue>, u: User, d: CardDraws, randomFails: bool, now: Jwt.Time)
    requires ValidDraws(d) && EmailsUnique(t)
    ensures CreateTable(t, u, d, randomFails, now).Success? ==> EmailsUnique(CreateTable(t, u, d, randomFails, now).value.0)
  {
    var r := CreateTable(t, u, d, randomFails, now);
    if r.Success? {
      var t' := r.value.0;
      assert !EmailTaken(t, u.email);
      forall i, j | 0 <= i < j < |t'|
        ensures t'[i].user.email != t'[j].user.email
      {
        if j == |t| {
          assert t'[j].user == u && t'[i] == t[i];
        } else {
          assert t'[i] == t[i] && t'[j] == t[j];
        }
      }
    }
  }

  /** A table every card of which was made by the as-written newCard. */
  predicate NoUserRecorded(t: seq<CardValue>) {
    forall j :: 0 <= j < |t| ==> t[j].user == ZeroUser
  }

  /** As written, create keeps every card without a user. */
  lemma CreateAsWrittenRecordsNoUser(t: seq<CardValue>, u: User, d: CardDraws, randomFails: bool, now: Jwt.Time)
    requires ValidDraws(d) && NoUserRecorded(t)
    ensures CreateTableAsWritten(t, u, d, randomFails, now).Success? ==>
      NoUserRecorded(CreateTableAsWritten(t, u, d, randomFails, now).value.0)
  {
    var r := CreateTableAsWritten(t, u, d, randomFails, now);
    if r.Success? {
      var t' := r.value.0;
      forall j | 0 <= j < |t'|
        ensures t'[j].user == ZeroUser
      {
        if j < |t| { assert t'[j] == t[j]; }
      }
    }
  }

  /**
   * As written, the duplicate guard never refuses a non-empty e-mail: on
   * such a table only create's random failure can stop a second card for it.
   */
  lemma CreateAsWrittenNeverRefusesEmail(t: seq<CardValue>, u: User, d: CardDraws, randomFails: bool, now: Jwt.Time)
    requires ValidDraws(d) && NoUserRecorded(t) && u.email != ""
    ensures CreateTableAsWritten(t, u, d, randomFails, now).Success? <==> !randomFails
  {
    assert !EmailTaken(t, u.email);
  }

  /** The same e-mail gets two cards: both create calls succeed. */
  lemma CreateAsWrittenTwiceForOneEmail(u: User, d: CardDraws, now: Jwt.Time)
    requires ValidDraws(d) && u.email != ""
    ensures CreateTableAsWritten([], u, d, false, now).Success?
    ensures var t1 := CreateTableAsWritten([], u, d, false, now).value.0;
      && CreateTableAsWritten(t1, u, d, false, now).Success?
      && |CreateTableAsWritten(t1, u, d, false, now).value.0| == 2
  {
    var t1 := CreateTableAsWritten([], u, d, false, now).value.0;
    CreateAsWrittenRecordsNoUser([], u, d, false, now);
    CreateAsWrittenNeverRefusesEmail(t1, u, d, false, now);
  }

  /** With the user recorded, the second create for the same e-mail is refused. */
  lemma CreateTwiceForOneEmailRefused(u: User, d: CardDraws, now: Jwt.Time)
    requires ValidDraws(d)
    ensures CreateTable([], u, d, false, now).Success?
    ensures var t1 := CreateTable([], u, d, false, now).value.0;
      CreateTable(t1, u, d, false, now) == Failure(ErrUserHasCard)
  {
    var t1 := CreateTable([], u, d, false, now).value.0;
    assert t1[0].user.email == u.email;
  }

  /** What getCard discloses of a card. */
  datatype CardDetails = CardDetails(nameOnCard: string, cardNumber: string, expiryDate: string, cvv: string)

  /** getCard's CVV: the RealPAN characters at offsets 3, 7 and 11. */
  function DerivedCvv(realPAN: string): (r: string)
    requires |realPAN| >= 12
    ensures |r| == 3
    ensures r[0] == realPAN[3] && r[1] == realPAN[7] && r[2] == realPAN[11]
  {
    [realPAN[3], realPAN[7], realPAN[11]]
  }

  /** The disclosed view of a card: its real number and expiry date and the derived CVV. */
  function DetailsOf(c: CardValue): (r: CardDetails)
    requires |c.realPAN| >= 12
    ensures r.nameOnCard == c.nameOnCard && r.cardNumber == c.realPAN && r.expiryDate == c.realExpDate
    ensures r.cvv == DerivedCvv(c.realPAN)
  {
    CardDetails(c.nameOnCard, c.realPAN, c.realExpDate, DerivedCvv(c.realPAN))
  }
}
