/** What a checkout reference must be to be accepted, whoever made it, and what its payload text is. */
module CheckoutAcceptance {
  import opened Basics
  import opened Base64Url
  import opened PayloadJson
  import opened CheckoutReference

  // ---- Bounds and proof ----

  /** Both texts are there, within their limits once trimmed, and the settings make sense. */
  predicate InBounds(id: string, proof: string, maxAge: int, maxFuture: int)
  {
    maxAge > 0 && maxFuture >= 0 && 0 < |Strip(id)| <= 2048 && 0 < |Strip(proof)| <= 256
  }

  /** The proof is the keyed digest of the trimmed id, up to outer white space and letter case. */
  predicate IsSigned(lib: Library, id: string, proof: string, secret: string)
  {
    IsAscii(Lower(Strip(proof))) && Lower(Strip(proof)) == lib.mac(secret, Strip(id))
  }

  lemma {:induction false} LowerIsPointwise(s: string)
    ensures |Lower(s)| == |s|
    ensures forall i :: 0 <= i < |s| ==>
              Lower(s)[i] == if 'A' <= s[i] <= 'Z' then (s[i] as int + 32) as char else s[i]
  {
    if s != "" {
      LowerIsPointwise(s[1..]);
    }
  }

  // ---- Payload ----

  /** A payload of schema version 1 (which Python's true equals) with these contents. */
  predicate Carries(fields: map<string, Json>, p: Payload)
  {
    var version, issued := Get(fields, "schema_version"), Get(fields, "issued_at");
    var user := Get(fields, "internal_user_id");
    (version == JInt(1) || version == JBool(true))
    && issued.JString? && Strip(issued.text) == p.issuedAt != ""
    && Get(fields, "telegram_user_id") == JInt(p.telegramId) && 0 < p.telegramId < 0x8000_0000_0000_0000
    && (user.JNull? || user.JString?)
    && p.internalId == (if user.JString? && Strip(user.text) != "" then Some(Strip(user.text)) else None)
  }

  /** Its issue time is a timestamp with an offset, no older than maxAge seconds and no further ahead than
      maxFuture seconds. */
  predicate InTime(lib: Library, p: Payload, now: int, maxAge: int, maxFuture: int)
  {
    var at := lib.parse(ForParse(p.issuedAt));
    at.At? && at.micros - maxFuture * 1_000_000 <= now <= at.micros + maxAge * 1_000_000
  }

  /** The JSON object an id decodes to, if it does. */
  function Decoded(id: string): Option<map<string, Json>>
  {
    var raw := Decode(Strip(id));
    if raw.None? || Text(raw.value).None? || !Loads(Text(raw.value).value).Object? then None
    else Some(Loads(Text(raw.value).value).fields)
  }

  /** A reference is accepted with a payload if and only if it is in bounds, its proof is the digest of its
      id, and its id decodes to an object that carries the payload and is in time. */
  lemma AcceptedExactlyWhen(lib: Library, id: string, proof: string, secret: string, now: int, maxAge: int, maxFuture: int, p: Payload)
    ensures Verify(lib, id, proof, secret, now, maxAge, maxFuture) == Ok(p)
            <==> InBounds(id, proof, maxAge, maxFuture) && IsSigned(lib, id, proof, secret)
                 && Decoded(id).Some? && Carries(Decoded(id).value, p) && InTime(lib, p, now, maxAge, maxFuture)
  {
    LowerIsPointwise(Strip(proof));
    if InBounds(id, proof, maxAge, maxFuture) && Decoded(id).Some? {
      FieldsAcceptedExactlyWhen(lib, Decoded(id).value, now, maxAge, maxFuture, p);
    }
  }

  lemma FieldsAcceptedExactlyWhen(lib: Library, fields: map<string, Json>, now: int, maxAge: int, maxFuture: int, p: Payload)
    ensures VerifyFields(lib, fields, now, maxAge, maxFuture) == Ok(p)
            <==> Carries(fields, p) && InTime(lib, p, now, maxAge, maxFuture)
  {
  }

  /** Whatever id it comes with, an in-bounds proof that is another text than the digest is invalid. */
  lemma OtherProofIsInvalid(lib: Library, id: string, proof: string, secret: string, now: int, maxAge: int, maxFuture: int)
    requires InBounds(id, proof, maxAge, maxFuture) && IsAscii(Lower(Strip(proof)))
    requires Lower(Strip(proof)) != lib.mac(secret, Strip(id))
    ensures Verify(lib, id, proof, secret, now, maxAge, maxFuture) == Failed(ProofInvalid)
  {
    LowerIsPointwise(Strip(proof));
  }

  /** Out of bounds, the reason is the first bound broken. */
  lemma OutOfBoundsIsNamed(lib: Library, id: string, proof: string, secret: string, now: int, maxAge: int, maxFuture: int)
    requires !InBounds(id, proof, maxAge, maxFuture)
    ensures Verify(lib, id, proof, secret, now, maxAge, maxFuture)
         == Failed(if maxAge <= 0 then BadMaxAge else if maxFuture < 0 then BadMaxFuture
                   else if Strip(id) == "" then IdRequired else if |Strip(id)| > 2048 then IdTooLong
                   else if Strip(proof) == "" then ProofRequired else ProofTooLong)
  {
    LowerIsPointwise(Strip(proof));
  }

  // ---- Resolution ----

  predicate HasReference(f: PayerFields)
  {
    f.id.Some? && f.id.value != "" && f.proof.Some? && f.proof.value != ""
  }

  /** A payment that names a reference resolves to a payer if and only if a secret is configured, the
      reference is signed with it and carries that payer, the payment is at most 300 seconds before the issue
      time, and no other Telegram id is named. */
  lemma NamedReferenceResolvesExactlyWhen(lib: Library, f: PayerFields, settings: IngressSettings, now: int, p: Payload)
    requires HasReference(f) && settings.secret.Some?
    requires Verify(lib, f.id.value, f.proof.value, settings.secret.value, now, settings.maxAge, 300) == Ok(p)
    ensures var r := ResolveIdentity(lib, f, settings, now);
            var at := lib.parse(ForParse(p.issuedAt));
            (r.Ok? <==> settings.secret.value != "" && at.At? && f.paidAt >= at.micros - 300 * 1_000_000
                        && (f.telegramId.Some? ==> f.telegramId.value == p.telegramId))
            && (r.Ok? ==> r.value == (p.telegramId, if p.internalId.Some? then p.internalId.value else "u" + Signed(p.telegramId)))
  {
    AcceptedExactlyWhen(lib, f.id.value, f.proof.value, settings.secret.value, now, settings.maxAge, 300, p);
  }

  /** No payment that names a reference is resolved unless its proof is the digest under the configured
      secret. */
  lemma ForgedReferenceIsRefused(lib: Library, f: PayerFields, settings: IngressSettings, now: int)
    requires HasReference(f) && ResolveIdentity(lib, f, settings, now).Ok?
    ensures settings.secret.Some? && settings.secret.value != ""
            && IsSigned(lib, f.id.value, f.proof.value, settings.secret.value)
            && Verify(lib, f.id.value, f.proof.value, settings.secret.value, now, settings.maxAge, 300).Ok?
  {
    var v := Verify(lib, f.id.value, f.proof.value, settings.secret.value, now, settings.maxAge, 300);
    AcceptedExactlyWhen(lib, f.id.value, f.proof.value, settings.secret.value, now, settings.maxAge, 300, v.value);
  }

  /** Without a reference, strict ingress refuses every payment and the other takes the Telegram id named. */
  lemma WithoutReference(lib: Library, f: PayerFields, settings: IngressSettings, now: int)
    requires !HasReference(f)
    ensures ResolveIdentity(lib, f, settings, now)
         == if settings.strict then Failed(MissingReference)
            else if f.telegramId.None? then Failed(TelegramIdRequired)
            else Ok((f.telegramId.value, "u" + Signed(f.telegramId.value)))
  {
  }

  // ---- The payload's text ----

  /** An object is written as its members in order: the quoted key, a colon, the value, and a comma if more
      follow, without white space. */
  lemma WrittenMember(key: string, v: Json, rest: seq<Member>)
    ensures WriteMembers([(key, v)] + rest)
         == "\"" + Escape(key) + "\":" + (Write(v) + ((if rest != [] then "," else "") + WriteMembers(rest)))
  {
    assert ([(key, v)] + rest)[1..] == rest;
    Regrouped("\"", Escape(key), "\":", Write(v) + ((if rest != [] then "," else "") + WriteMembers(rest)));
  }

  lemma Regrouped(a: string, b: string, c: string, d: string)
    ensures a + (b + (c + d)) == a + b + c + d
  {
  }

  /** The four hexadecimal digits of a code unit are lower-case ones, and their number is the code unit. */
  lemma CodeUnitDigits(n: int)
    requires 0 <= n < 0x1_0000
    ensures Hex4Value(Hex4(n)) == Some(n)
    ensures forall i :: 0 <= i < 4 ==> '0' <= Hex4(n)[i] <= '9' || 'a' <= Hex4(n)[i] <= 'f'
  {
    Hex4RoundTrip(n, "");
    assert Hex4(n) + "" == Hex4(n);
  }

  // ---- Creation ----

  /** A reference is created for any valid Telegram id and no other, with the digest of its own id as proof, so
      that nobody else's proof is accepted for it. */
  lemma CreatedExactlyWhen(lib: Library, telegramId: int, internalId: Option<string>, secret: string, now: int)
    ensures var r := Create(lib, telegramId, internalId, secret, now);
            if 0 < telegramId < 0x8000_0000_0000_0000 then
              r.Ok? && r.value.proof == lib.mac(secret, r.value.id) && r.value.payload.telegramId == telegramId
              && r.value.payload.internalId == Trimmed(internalId)
            else r == Failed(TelegramIdInvalid)
  {
  }

  /** Blank means none. */
  function Trimmed(id: Option<string>): Option<string>
  {
    if id.Some? && Strip(id.value) != "" then Some(Strip(id.value)) else None
  }
}
