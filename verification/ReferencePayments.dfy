/** From a checkout reference to a paid subscription: which resolved identities billing ingest takes. */
module ReferencePayments {
  import opened Basics
  import Billing
  import BillingWorld
  import BillingConvergence
  import PayloadJson
  import Reference = CheckoutReference

  /** The parts of a payment that do not come from the reference are acceptable. */
  predicate RestIsTaken(p: Billing.Payment)
  {
    |p.key.provider| <= 256 && !Billing.HasControl(p.paymentId) && '\0' !in p.key.provider && '\0' !in p.key.externalId
  }

  lemma ConventionalIdIsTaken(telegramId: int)
    requires Reference.ValidTelegramId(telegramId)
    ensures var id := Reference.ConventionalId(telegramId); |id| <= 256 && !Billing.HasControl(id)
  {
    var id := Reference.ConventionalId(telegramId);
    Reference.ConventionalIdIsPlain(telegramId);
    Reference.TelegramIdLength(telegramId);
    PayloadJson.DigitsAreDigits(telegramId);
    forall i | 0 <= i < |id| ensures !Billing.IsControl(id[i]) {
      assert i > 0 ==> id[i] == Digits(telegramId)[i - 1] && PayloadJson.IsDigit(id[i]);
    }
  }

  /** Of a payment by a created reference that resolves, ingest takes the resolved user exactly when the
      reference was created for no internal id, or for one of at most 256 characters, none of them a
      control character; the verifier itself asks for neither. */
  lemma ResolvedUserIsTakenExactlyWhen(lib: Reference.Library, telegramId: int, internalId: Option<string>,
                                                          secret: string, createdAt: int, paidAt: int, maxAge: int, strict: bool,
                                                          now: int, p: Billing.Payment)
    returns (s: Reference.SignedReference, r: Reference.Outcome<(int, string)>)
    requires Reference.ValidTelegramId(telegramId) && maxAge > 0
    requires Reference.ClockOk(lib, createdAt / Reference.SECOND) && Reference.DigestOk(lib, secret)
    ensures Reference.Create(lib, telegramId, internalId, secret, createdAt) == Reference.Ok(s)
    ensures r == Reference.ResolveIdentity(lib, Reference.PayerFields(None, Some(s.id), Some(s.proof), paidAt),
                                           Reference.IngressSettings(Some(secret), maxAge, strict), now)
    ensures r.Ok? && p.telegramId == r.value.0 && p.user == r.value.1 && RestIsTaken(p) ==>
              var id := Reference.NormalizeInternalUserId(internalId);
              Billing.Ingestible(p) <==> (id.Some? ==> |id.value| <= 256 && !Billing.HasControl(id.value))
  {
    s := Reference.CreatedReferenceResolves(lib, telegramId, internalId, secret, createdAt, None, paidAt, maxAge, strict, now);
    r := Reference.ResolveIdentity(lib, Reference.PayerFields(None, Some(s.id), Some(s.proof), paidAt),
                                   Reference.IngressSettings(Some(secret), maxAge, strict), now);
    ConventionalIdIsTaken(telegramId);
  }

  function Filler(n: nat): string
  {
    if n == 0 then "" else "a" + Filler(n - 1)
  }

  lemma {:induction false} FillerIs(n: nat)
    ensures |Filler(n)| == n && (forall i :: 0 <= i < n ==> Filler(n)[i] == 'a')
  {
    if n > 0 {
      FillerIs(n - 1);
    }
  }

  /** It happens, for every Telegram id and every internal id length from 257 to 1420: the reference resolves
      when it is created, and no run of anything ever answers a payment by it 200. */
  lemma ResolvesAndIsNeverPaid(lib: Reference.Library, telegramId: int, n: nat, secret: string, createdAt: int,
                                                  p: Billing.Payment, db: Billing.Db, events: seq<BillingWorld.Event>)
    returns (s: Reference.SignedReference)
    requires Reference.ValidTelegramId(telegramId) && 257 <= n <= 1420 && p.user == Filler(n) && secret != ""
    requires Reference.ClockOk(lib, createdAt / Reference.SECOND) && Reference.DigestOk(lib, secret)
    ensures Reference.Create(lib, telegramId, Some(Filler(n)), secret, createdAt) == Reference.Ok(s)
    ensures Reference.ResolveIdentity(lib, Reference.PayerFields(None, Some(s.id), Some(s.proof), createdAt),
                                      Reference.IngressSettings(Some(secret), 1, true), createdAt)
            == Reference.Ok((telegramId, Filler(n)))
    ensures (p, 200) !in BillingWorld.Run(BillingWorld.Initial(db), events).answers
  {
    s := FillerResolves(lib, telegramId, n, secret, createdAt);
    FillerIs(n);
    BillingConvergence.RefusedIsNeverPaid(BillingWorld.Initial(db), events, p);
  }

  lemma FillerFits(lib: Reference.Library, telegramId: int, n: nat, secret: string, createdAt: int)
    returns (s: Reference.SignedReference)
    requires Reference.ValidTelegramId(telegramId) && 257 <= n <= 1420
    requires Reference.ClockOk(lib, createdAt / Reference.SECOND)
    ensures Reference.NormalizeInternalUserId(Some(Filler(n))) == Some(Filler(n))
    ensures Reference.Create(lib, telegramId, Some(Filler(n)), secret, createdAt) == Reference.Ok(s) && |s.id| <= 2048
  {
    var id := Filler(n);
    FillerIs(n);
    TrimmedStays(id);
    PayloadJson.PlainIsNotEscaped(id);
    Reference.TelegramIdLength(telegramId);
    s := Reference.CreatedFitsExactlyWhen(lib, telegramId, Some(id), secret, createdAt);
  }

  lemma FillerResolves(lib: Reference.Library, telegramId: int, n: nat, secret: string, createdAt: int)
    returns (s: Reference.SignedReference)
    requires Reference.ValidTelegramId(telegramId) && 257 <= n <= 1420 && secret != ""
    requires Reference.ClockOk(lib, createdAt / Reference.SECOND) && Reference.DigestOk(lib, secret)
    ensures Reference.Create(lib, telegramId, Some(Filler(n)), secret, createdAt) == Reference.Ok(s)
    ensures Reference.ResolveIdentity(lib, Reference.PayerFields(None, Some(s.id), Some(s.proof), createdAt),
                                      Reference.IngressSettings(Some(secret), 1, true), createdAt)
            == Reference.Ok((telegramId, Filler(n)))
  {
    var fits := FillerFits(lib, telegramId, n, secret, createdAt);
    JustCreated(createdAt);
    s := Reference.CreatedReferenceResolves(lib, telegramId, Some(Filler(n)), secret, createdAt, None, createdAt, 1, true, createdAt);
  }

  lemma JustCreated(now: int)
    ensures var issued := now / Reference.SECOND * Reference.SECOND;
            Reference.InWindow(now, issued, 1, 300) && now >= issued - 300 * Reference.SECOND
  {
  }
}
