/**
 * The in-memory card service of cmd/server: card records built by setters
 * (main.go), the shared Context with its card list and verification keys,
 * and the handlers create, loadHandler, patch, me, verify and getCard.
 * Every handler is proved to leave the table as the value-level functions of
 * CardTable and KeyStore say.
 */
module Server {
  import opened Wrappers
  import opened GoText
  import opened Utils
  import opened CardTable
  import Jwt
  import Auth
  import KeyStore
  import opened Http

  /** A card whose fields its setters and the handlers update in place. */
  class Card {
    var id: string
    var user: User
    var nameOnCard: string
    var pan: string
    var realPAN: string
    var referenceID: string
    var expDate: string
    var realExpDate: string
    var cvv: string
    var balance: Int64
    var createdAt: Jwt.Time
    var updatedAt: Jwt.Time

    /** The card's current field values. */
    function View(): CardValue
      reads this
    {
      CardValue(id, user, nameOnCard, pan, realPAN, referenceID, expDate, realExpDate, cvv, balance, createdAt, updatedAt)
    }

    /** &card{} */
    constructor ()
      ensures View() == ZeroCard
    {
      id, user, nameOnCard, pan, realPAN, referenceID := "", ZeroUser, "", "", "", "";
      expDate, realExpDate, cvv, balance, createdAt, updatedAt := "", "", "", 0, ZeroTime, ZeroTime;
    }

    method SetNameOnCard(u: User)
      modifies this
      ensures View() == old(View()).(nameOnCard := NameOnCard(u))
    {
      nameOnCard := u.firstName + " " + u.lastName;
    }

    /** SetPAN: 16 random decimal digits. */
    method SetPAN(draws: seq<nat>)
      requires |draws| == 16 && DrawsFit(draws, |Numbers|)
      modifies this
      ensures View() == old(View()).(pan := Spell(Numbers, draws))
      ensures |pan| == 16 && AllDigits(pan)
    {
      pan := RandomStringNumber(16, draws);
    }

    /** SetReferenceID: 8 random decimal digits. */
    method SetReferenceID(draws: seq<nat>)
      requires |draws| == 8 && DrawsFit(draws, |Numbers|)
      modifies this
      ensures View() == old(View()).(referenceID := Spell(Numbers, draws))
      ensures |referenceID| == 8 && AllDigits(referenceID)
    {
      referenceID := RandomStringNumber(8, draws);
    }

    /** SetExpDate: a picked month and year as "MM/YY". */
    method SetExpDate(month: nat, year: nat)
      requires month < |Months| && year < |Years|
      modifies this
      ensures View() == old(View()).(expDate := ExpDate(month, year))
      ensures ExpDateWellFormed(expDate)
    {
      var m := PickMonth(month);
      var y := PickYear(year);
      expDate := m + "/" + y;
    }

    /** The overwrite patch performs on the card it finds. */
    method ApplyPatch(p: PatchRequest, now: Jwt.Time)
      modifies this
      ensures View() == Patched(old(View()), p, now)
    {
      pan := p.cardNumber;
      expDate := p.expDate;
      cvv := p.cvv;
      referenceID := p.referenceID;
      updatedAt := now;
    }

    method SetBalance(b: Int64)
      modifies this
      ensures View() == old(View()).(balance := b)
    {
      balance := b;
    }
  }

  /** newCard as written: the setters in order, then CreatedAt; the user is not stored. */
  method NewCard(u: User, d: CardDraws, now: Jwt.Time) returns (c: Card)
    requires ValidDraws(d)
    ensures fresh(c)
    ensures c.View() == NewCardValue(u, d, now)
  {
    c := new Card();
    c.SetNameOnCard(u);
    c.SetPAN(d.pan);
    c.SetExpDate(d.month, d.year);
    c.SetReferenceID(d.reference);
    c.SetBalance(0);
    c.createdAt := now;
  }

  /** newCard that also records the user the card is made for. */
  method NewCardForUser(u: User, d: CardDraws, now: Jwt.Time) returns (c: Card)
    requires ValidDraws(d)
    ensures fresh(c)
    ensures c.View() == NewCardValueForUser(u, d, now)
  {
    c := NewCard(u, d, now);
    c.user := u;
  }

  /** The 62 characters verification keys are drawn from. */
  const Charset: string := "abcdefghijklmnopqrstuvwxyz" + "ABCDEFGHIJKLMNOPQRSTUVWXYZ0123456789"

  const AuthKeyLength: nat := 12

  /** StringWithCharset(length, charset): `length` characters, each drawn from `charset`. */
  method StringWithCharset(length: nat, charset: string, draws: seq<nat>) returns (s: string)
    requires |draws| == length && DrawsFit(draws, |charset|)
    ensures s == Spell(charset, draws)
    ensures |s| == length && forall i :: 0 <= i < |s| ==> s[i] in charset
  {
    var b := new char[length];
    for i := 0 to length
      invariant forall k :: 0 <= k < i ==> b[k] == charset[draws[k]]
    {
      b[i] := charset[draws[i]];
    }
    s := b[..];
    assert s == Spell(charset, draws);
    SpellFromAlphabet(charset, draws);
  }

  /** A verification key: 12 characters, lower- or upper-case ASCII letters and digits. */
  lemma VerificationKeyShape(draws: seq<nat>)
    requires |draws| == AuthKeyLength && DrawsFit(draws, |Charset|)
    ensures |Charset| == 62
    ensures |Spell(Charset, draws)| == 12 && Spell(Charset, draws) != ""
    ensures forall i :: 0 <= i < 12 ==>
      var ch := Spell(Charset, draws)[i];
      ('a' <= ch <= 'z') || ('A' <= ch <= 'Z') || IsDigit(ch)
  {
    forall i | 0 <= i < 12
      ensures var ch := Spell(Charset, draws)[i];
        ('a' <= ch <= 'z') || ('A' <= ch <= 'Z') || IsDigit(ch)
    {
      assert Spell(Charset, draws)[i] == Charset[draws[i]];
    }
  }

  const ErrInvalidToken: Jwt.Error := Jwt.OtherError("invalid token")
  const MsgKeyRequired: string := "a valid verification key must be provided"
  const MsgInvalidVerificationToken: string := "invalid verification token"

  /**
   * checkSession: an empty Authorization header is refused with "invalid
   * token"; otherwise every "Bearer " in it is removed and the rest is
   * handed to SessionService.Session.
   */
  function CheckSession(svc: Jwt.SessionService, parse: Jwt.Parser, header: string): (r: Result<Jwt.Session, Jwt.Error>)
    ensures header == "" ==> r == Failure(ErrInvalidToken)
  {
    if header == "" then Failure(ErrInvalidToken)
    else Jwt.SessionFor(svc, parse, Jwt.SessionCredentials(RemoveAll(header, Auth.TokenTypePrefix)))
  }

  /**
   * For a well-formed bearer header, checkSession validates exactly the
   * token the auth middleware's parseAuthToken extracts.
   */
  lemma CheckSessionAgreesWithParseAuthToken(svc: Jwt.SessionService, parse: Jwt.Parser, r: Auth.Request)
    requires Auth.ParseAuthToken(r).Success?
    requires !Occurs(Auth.ParseAuthToken(r).value, Auth.TokenTypePrefix)
    ensures CheckSession(svc, parse, r.authorization) ==
      Jwt.SessionFor(svc, parse, Jwt.SessionCredentials(Auth.ParseAuthToken(r).value))
  {
    var token := Auth.ParseAuthToken(r).value;
    RemoveAllLeading(Auth.TokenTypePrefix, token);
    RemoveAllAbsent(token, Auth.TokenTypePrefix);
  }

  /**
   * checkSession also removes a "Bearer " that is not at the front: the
   * text before it is kept and the scan goes on after it.
   */
  lemma CheckSessionStripsInnerPrefix(svc: Jwt.SessionService, parse: Jwt.Parser, a: string, b: string)
    requires forall k :: 0 <= k < |a| ==> !HasPrefix((a + Auth.TokenTypePrefix + b)[k..], Auth.TokenTypePrefix)
    ensures CheckSession(svc, parse, a + Auth.TokenTypePrefix + b) ==
      Jwt.SessionFor(svc, parse, Jwt.SessionCredentials(a + RemoveAll(b, Auth.TokenTypePrefix)))
  {
    RemoveAllAfterClean(a, Auth.TokenTypePrefix, b);
  }

  /**
   * A non-empty header with no "Bearer " anywhere in it, which the auth
   * middleware refuses, is still validated by checkSession as a token
   * exactly as it stands.
   */
  lemma CheckSessionIgnoresScheme(svc: Jwt.SessionService, parse: Jwt.Parser, r: Auth.Request)
    requires r.authorization != "" && !Occurs(r.authorization, Auth.TokenTypePrefix)
    ensures Auth.ParseAuthToken(r).Failure?
    ensures CheckSession(svc, parse, r.authorization) == Jwt.SessionFor(svc, parse, Jwt.SessionCredentials(r.authorization))
  {
    RemoveAllAbsent(r.authorization, Auth.TokenTypePrefix);
  }

  /** What getCard does once the key check has passed. */
  function CardDetailsOutcome(c: Option<CardValue>): (r: Outcome)
    ensures c.None? ==> r.Panicked?
    ensures c.Some? && |c.value.realPAN| < 12 ==> r.Panicked?
    ensures c.Some? && |c.value.realPAN| >= 12 ==> r == Returned(Response(StatusOK, Details(DetailsOf(c.value))))
  {
    match c
    case None => Panicked("invalid memory address or nil pointer dereference")
    case Some(card) =>
      if |card.realPAN| < 12 then Panicked("index out of range")
      else Returned(Response(StatusOK, Details(DetailsOf(card))))
  }

  /** The deletion the goroutine of verify performs: the owner it captured, and the key it was set for. */
  datatype Timer = Timer(owner: string, key: string)

  /** The state the handlers share. */
  class Context {
    var cards: seq<Card>
    var authKeys: KeyStore.Keys
    const sessionSecretKey: seq<bv8>
    const sessionMaxAge: int   // seconds

    constructor (secret: seq<bv8>, maxAge: int)
      ensures cards == [] && authKeys == map[]
      ensures sessionSecretKey == secret && sessionMaxAge == maxAge
    {
      cards := [];
      authKeys := map[];
      sessionSecretKey := secret;
      sessionMaxAge := maxAge;
    }

    /** No card is in the list twice, so updating one card changes one entry. */
    predicate Valid()
      reads this
    {
      forall i, j :: 0 <= i < j < |cards| ==> cards[i] != cards[j]
    }

    /** The field values of all cards, in list order. */
    function Table(): seq<CardValue>
      reads this, cards
    {
      seq(|cards|, i reads this, cards requires 0 <= i < |cards| => cards[i].View())
    }

    /** The SessionService checkSession builds from the context. */
    function Service(): Jwt.SessionService {
      Jwt.SessionService(sessionSecretKey, sessionMaxAge * Jwt.Second)
    }

    /** create's duplicate guard: does a card in the list belong to a user with this e-mail? */
    method HasCardForEmail(email: string) returns (taken: bool)
      ensures taken <==> EmailTaken(Table(), email)
    {
      ghost var t := Table();
      for i := 0 to |cards|
        invariant forall k :: 0 <= k < i ==> t[k].user.email != email
      {
        if cards[i].user.email == email {
          assert t[i].user.email == email;
          return true;
        }
      }
      return false;
    }

    /**
     * create as written: a body that cannot be read is an error; otherwise
     * the table changes exactly as CreateTableAsWritten says (the card comes
     * from newCard, which records no user) and the new card is returned with 201.
     */
    method Create(body: Result<User, string>, d: CardDraws, randomFails: bool, now: Jwt.Time) returns (out: Outcome)
      requires Valid() && ValidDraws(d)
      modifies this
      ensures Valid() && authKeys == old(authKeys)
      ensures body.Failure? ==> out == Failed(body.error) && Table() == old(Table())
      ensures body.Success? ==>
        var r := CreateTableAsWritten(old(Table()), body.value, d, randomFails, now);
        && (r.Failure? ==> out == Failed(r.error) && Table() == old(Table()))
        && (r.Success? ==> out == Returned(Response(StatusCreated, OneCard(r.value.1))) && Table() == r.value.0)
    {
      if body.Failure? {
        return Failed(body.error);
      }
      var u := body.value;
      var taken := HasCardForEmail(u.email);
      if taken {
        return Failed(ErrUserHasCard);
      }
      ghost var t := Table();
      var c := NewCard(u, d, now);
      assert Table() == t;
      if randomFails {
        return Failed(ErrSomethingWrong);
      }
      cards := cards + [c];
      assert Table() == t + [c.View()];
      out := Returned(Response(StatusCreated, OneCard(c.View())));
    }

    /**
     * create as evidently intended: the same steps, but the new card records
     * the request's user, so the duplicate guard can see it (CreateTable).
     */
    method CreateRecordingUser(body: Result<User, string>, d: CardDraws, randomFails: bool, now: Jwt.Time) returns (out: Outcome)
      requires Valid() && ValidDraws(d)
      modifies this
      ensures Valid() && authKeys == old(authKeys)
      ensures body.Failure? ==> out == Failed(body.error) && Table() == old(Table())
      ensures body.Success? ==>
        var r := CreateTable(old(Table()), body.value, d, randomFails, now);
        && (r.Failure? ==> out == Failed(r.error) && Table() == old(Table()))
        && (r.Success? ==> out == Returned(Response(StatusCreated, OneCard(r.value.1))) && Table() == r.value.0)
    {
      if body.Failure? {
        return Failed(body.error);
      }
      var u := body.value;
      var taken := HasCardForEmail(u.email);
      if taken {
        return Failed(ErrUserHasCard);
      }
      ghost var t := Table();
      var c := NewCardForUser(u, d, now);
      assert Table() == t;
      if randomFails {
        return Failed(ErrSomethingWrong);
      }
      cards := cards + [c];
      assert Table() == t + [c.View()];
      out := Returned(Response(StatusCreated, OneCard(c.View())));
    }

    /**
     * loadHandler: the first card with the reference, and only it, gains
     * the amount; 200 with that card, or 404 and no change.
     */
    method Load(body: Result<LoadRequest, string>) returns (out: Outcome)
      requires Valid()
      modifies cards
      ensures body.Failure? ==> out == Failed(body.error) && Table() == old(Table())
      ensures body.Success? ==>
        var r := LoadTable(old(Table()), body.value);
        && Table() == r.0
        && (r.1.None? ==> out == Returned(Response(StatusNotFound, NoData)))
        && (r.1.Some? ==> out == Returned(Response(StatusOK, OneCard(r.1.value))))
    {
      if body.Failure? {
        return Failed(body.error);
      }
      var req := body.value;
      ghost var t := Table();
      for i := 0 to |cards|
        invariant forall k :: 0 <= k < i ==> t[k].referenceID != req.referenceID
        invariant Table() == t
      {
        if cards[i].referenceID == req.referenceID {
          var card := cards[i];
          assert t[i] == card.View();
          FirstMatchUnique(t, ByReference(req.referenceID), i);
          card.balance := AddInt64(card.balance, req.amount);
          assert Table() == t[i := card.View()] by {
            forall k | 0 <= k < |cards| && k != i
              ensures cards[k].View() == t[k]
            {
              assert cards[k] != card;
            }
          }
          return Returned(Response(StatusOK, OneCard(card.View())));
        }
      }
      return Returned(Response(StatusNotFound, NoData));
    }

    /**
     * patch: without a string "id" in the request context, "missing id";
     * otherwise the first card with that ID takes the patch and is returned
     * with 200, or 404 and no change.
     */
    method Patch(id: Option<string>, body: Result<PatchRequest, string>, now: Jwt.Time) returns (out: Outcome)
      requires Valid()
      modifies cards
      ensures id.None? ==> out == Failed("missing id") && Table() == old(Table())
      ensures id.Some? && body.Failure? ==> out == Failed(body.error) && Table() == old(Table())
      ensures id.Some? && body.Success? ==>
        var r := PatchTable(old(Table()), id.value, body.value, now);
        && Table() == r.0
        && (r.1.None? ==> out == Returned(Response(StatusNotFound, NoData)))
        && (r.1.Some? ==> out == Returned(Response(StatusOK, OneCard(r.1.value))))
    {
      if id.None? {
        return Failed("missing id");
      }
      if body.Failure? {
        return Failed(body.error);
      }
      var p := body.value;
      ghost var t := Table();
      for i := 0 to |cards|
        invariant forall k :: 0 <= k < i ==> t[k].id != id.value
        invariant Table() == t
      {
        if cards[i].id == id.value {
          var card := cards[i];
          assert t[i] == card.View();
          FirstMatchUnique(t, ById(id.value), i);
          card.ApplyPatch(p, now);
          assert Table() == t[i := card.View()] by {
            forall k | 0 <= k < |cards| && k != i
              ensures cards[k].View() == t[k]
            {
              assert cards[k] != card;
            }
          }
          return Returned(Response(StatusOK, OneCard(card.View())));
        }
      }
      return Returned(Response(StatusNotFound, NoData));
    }

    /** The loop of me and getCard: the last card whose ID is the user's, or nil. */
    method FindUserCard(userID: string) returns (userCard: Card?)
      ensures userCard == null <==> CardOfUser(Table(), userID).None?
      ensures userCard != null ==> userCard in cards && userCard.View() == CardOfUser(Table(), userID).value
    {
      ghost var t := Table();
      userCard := null;
      for i := 0 to |cards|
        invariant match LastMatch(t[..i], ById(userID))
          case None => userCard == null
          case Some(j) => j < |cards| && userCard == cards[j]
      {
        assert t[..i + 1][..i] == t[..i];
        if cards[i].id == userID {
          userCard := cards[i];
        }
      }
      assert t[..|cards|] == t;
    }

    /**
     * me: a failed session check is a 401 carrying the error text;
     * otherwise 200 with the user's card (the last with its ID) or nil.
     */
    method Me(authorization: string, parse: Jwt.Parser) returns (out: Outcome)
      ensures var s := CheckSession(Service(), parse, authorization);
        && (s.Failure? ==> out == Returned(Response(StatusUnauthorized, Text(s.error.Message()))))
        && (s.Success? ==> out == Returned(Response(StatusOK, MaybeCard(CardOfUser(Table(), s.value.userID)))))
    {
      var s := CheckSession(Service(), parse, authorization);
      if s.Failure? {
        return Returned(Response(StatusUnauthorized, Text(s.error.Message())));
      }
      var userCard := FindUserCard(s.value.userID);
      var found := if userCard == null then None else Some(userCard.View());
      return Returned(Response(StatusOK, MaybeCard(found)));
    }

    /**
     * verify: after a good session check a 12-character key from the
     * charset is issued to the user, replacing any earlier one, and the
     * 30-second deletion of that user's entry is scheduled.
     */
    method Verify(authorization: string, parse: Jwt.Parser, draws: seq<nat>) returns (out: Outcome, timer: Option<Timer>)
      requires |draws| == AuthKeyLength && DrawsFit(draws, |Charset|)
      modifies this
      ensures cards == old(cards)
      ensures var s := CheckSession(Service(), parse, authorization);
        && (s.Failure? ==>
              out == Returned(Response(StatusUnauthorized, Text(s.error.Message())))
              && timer == None && authKeys == old(authKeys))
        && (s.Success? ==>
              var key := Spell(Charset, draws);
              && out == Returned(Response(StatusCreated, Text(key)))
              && authKeys == KeyStore.Issue(old(authKeys), s.value.userID, key)
              && timer == Some(Timer(s.value.userID, key)))
    {
      var s := CheckSession(Service(), parse, authorization);
      if s.Failure? {
        return Returned(Response(StatusUnauthorized, Text(s.error.Message()))), None;
      }
      var authKey := StringWithCharset(AuthKeyLength, Charset, draws);
      authKeys := authKeys[s.value.userID := authKey];
      timer := Some(Timer(s.value.userID, authKey));
      out := Returned(Response(StatusCreated, Text(authKey)));
    }

    /** The scheduled deletion as written: the owner's entry goes, whatever key it now holds. */
    method Expire(t: Timer)
      modifies this
      ensures cards == old(cards)
      ensures authKeys == KeyStore.Expire(old(authKeys), t.owner)
    {
      authKeys := authKeys - {t.owner};
    }

    /** The intended deletion: only while the entry still holds the key the timer was set for. */
    method ExpireIfCurrent(t: Timer)
      modifies this
      ensures cards == old(cards)
      ensures authKeys == KeyStore.ExpireIfCurrent(old(authKeys), t.owner, t.key)
    {
      if t.owner in authKeys && authKeys[t.owner] == t.key {
        authKeys := authKeys - {t.owner};
      }
    }

    /**
     * getCard: 401 with the text of a failed session check; the body's
     * error; 400 when the user has no key or presents another one; and
     * otherwise the details of the user's card. AuthKeys is only read.
     */
    method GetCard(authorization: string, parse: Jwt.Parser, body: Result<string, string>) returns (out: Outcome)
      ensures var s := CheckSession(Service(), parse, authorization);
        && (s.Failure? ==> out == Returned(Response(StatusUnauthorized, Text(s.error.Message()))))
        && (s.Success? && body.Failure? ==> out == Failed(body.error))
        && (s.Success? && body.Success? ==>
              match KeyStore.Check(authKeys, s.value.userID, body.value)
              case MissingKey => out == Returned(Response(StatusBadRequest, Text(MsgKeyRequired)))
              case WrongKey => out == Returned(Response(StatusBadRequest, Text(MsgInvalidVerificationToken)))
              case Granted => out == CardDetailsOutcome(CardOfUser(Table(), s.value.userID)))
    {
      var s := CheckSession(Service(), parse, authorization);
      if s.Failure? {
        return Returned(Response(StatusUnauthorized, Text(s.error.Message())));
      }
      if body.Failure? {
        return Failed(body.error);
      }
      var verificationToken := body.value;
      var keyValue := if s.value.userID in authKeys then authKeys[s.value.userID] else "";
      if keyValue == "" {
        return Returned(Response(StatusBadRequest, Text(MsgKeyRequired)));
      }
      if keyValue != verificationToken {
        return Returned(Response(StatusBadRequest, Text(MsgInvalidVerificationToken)));
      }
      var userCard := FindUserCard(s.value.userID);
      if userCard == null {
        return Panicked("invalid memory address or nil pointer dereference");
      }
      if |userCard.realPAN| < 12 {
        return Panicked("index out of range");
      }
      var cvv := [userCard.realPAN[3], userCard.realPAN[7], userCard.realPAN[11]];
      out := Returned(Response(StatusOK, Details(CardDetails(userCard.nameOnCard, userCard.realPAN, userCard.realExpDate, cvv))));
    }
  }

  /**
   * A card made by the as-written newCard has no RealPAN, so a getCard
   * that is granted for it always panics.
   */
  lemma DetailsOfNewCardPanic(u: User, d: CardDraws, now: Jwt.Time)
    requires ValidDraws(d)
    ensures CardDetailsOutcome(Some(NewCardValue(u, d, now))).Panicked?
  {
  }
}
