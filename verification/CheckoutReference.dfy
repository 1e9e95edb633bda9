/** Signed checkout references: a JSON payload in unpadded base64url with a keyed digest, and the verifier
    that undoes its creator. Instants are in microseconds. */
module CheckoutReference {
  import opened Basics
  import opened Base64Url
  import opened PayloadJson

  const MAX_REFERENCE_ID_LEN := 2048
  const MAX_REFERENCE_PROOF_LEN := 256
  const MAX_TELEGRAM_ID := 0x7fff_ffff_ffff_ffff
  const SECOND := 1_000_000
  const MAX_FUTURE_SECONDS := 300

  /** What datetime.fromisoformat makes of a text. */
  datatype Instant = NotATimestamp | WithoutOffset | At(micros: int)

  /** The keyed digest in hexadecimal; date and time of an epoch second without offset; the ISO parser. */
  datatype Library = Library(mac: (string, string) -> string, dateTime: int -> string, parse: string -> Instant)

  datatype Payload = Payload(issuedAt: string, telegramId: int, internalId: Option<string>)

  datatype SignedReference = SignedReference(id: string, proof: string, payload: Payload)

  datatype Error =
    | BadMaxAge | BadMaxFuture | IdRequired | IdTooLong | ProofRequired | ProofTooLong | ProofInvalid | IdInvalid
    | NotAnObject | BadSchemaVersion | IssuedAtRequired | IssuedAtInvalid | IssuedAtWithoutOffset | Expired
    | FromTheFuture | TelegramIdInvalid | InternalIdInvalid | ComparisonTypeError
    | MissingReference | NoSecret | PaidTooEarly | TelegramIdMismatch | TelegramIdRequired

  datatype Outcome<T> = Ok(value: T) | Failed(error: Error)

  // ---- Text ----

  function Lower(s: string): string
  {
    if s == "" then "" else [if 'A' <= s[0] <= 'Z' then s[0] - 'A' + 'a' else s[0]] + Lower(s[1..])
  }

  // ---- Create ----

  function NormalizeInternalUserId(id: Option<string>): Option<string>
  {
    if id.None? || Strip(id.value) == "" then None else Some(Strip(id.value))
  }

  predicate ValidTelegramId(n: int)
  {
    0 < n <= MAX_TELEGRAM_ID
  }

  /** In key order. */
  function Members(p: Payload): seq<Member>
  {
    (if p.internalId.Some? then [("internal_user_id", JString(p.internalId.value))] else []) + AlwaysPresent(p)
  }

  function AlwaysPresent(p: Payload): seq<Member>
  {
    [("issued_at", JString(p.issuedAt)), ("schema_version", JInt(1)), ("telegram_user_id", JInt(p.telegramId))]
  }

  function Bytes(s: string): seq<Byte>
    requires IsPrintable(s)
  {
    seq(|s|, i requires 0 <= i < |s| => s[i] as int)
  }

  function ReferenceId(p: Payload): string
  {
    DumpsIsPrintable(Members(p));
    Encode(Bytes(Dumps(Members(p))))
  }

  function Create(lib: Library, telegramId: int, internalId: Option<string>, secret: string, now: int): Outcome<SignedReference>
  {
    if !ValidTelegramId(telegramId) then Failed(TelegramIdInvalid)
    else
      var p := Payload(lib.dateTime(now / SECOND) + "Z", telegramId, NormalizeInternalUserId(internalId));
      Ok(SignedReference(ReferenceId(p), lib.mac(secret, ReferenceId(p)), p))
  }

  // ---- Verify ----

  /** UTF-8 decoding of ASCII. */
  function Text(raw: seq<Byte>): Option<string>
  {
    if exists i :: 0 <= i < |raw| && raw[i] >= 128 then None
    else Some(seq(|raw|, i requires 0 <= i < |raw| && raw[i] < 128 => raw[i] as char))
  }

  function Get(fields: map<string, Json>, key: string): Json
  {
    if key in fields then fields[key] else JNull
  }

  function ForParse(stamp: string): string
  {
    if stamp != "" && stamp[|stamp| - 1] in "Zz" then stamp[..|stamp| - 1] + "+00:00" else stamp
  }

  function Verify(lib: Library, id: string, proof: string, secret: string, now: int, maxAge: int, maxFuture: int): Outcome<Payload>
  {
    if maxAge <= 0 then Failed(BadMaxAge)
    else if maxFuture < 0 then Failed(BadMaxFuture)
    else
      var refId, refProof := Strip(id), Lower(Strip(proof));
      if refId == "" then Failed(IdRequired)
      else if |refId| > MAX_REFERENCE_ID_LEN then Failed(IdTooLong)
      else if refProof == "" then Failed(ProofRequired)
      else if |refProof| > MAX_REFERENCE_PROOF_LEN then Failed(ProofTooLong)
      else if !IsAscii(refProof) then Failed(ComparisonTypeError)
      else if refProof != lib.mac(secret, refId) then Failed(ProofInvalid)
      else VerifyDecoded(lib, refId, now, maxAge, maxFuture)
  }

  function VerifyDecoded(lib: Library, refId: string, now: int, maxAge: int, maxFuture: int): Outcome<Payload>
  {
    var raw := Decode(refId);
    var text := if raw.None? then None else Text(raw.value);
    if text.None? then Failed(IdInvalid)
    else match Loads(text.value)
      case NotJson => Failed(IdInvalid)
      case Scalar => Failed(NotAnObject)
      case Object(fields) => VerifyFields(lib, fields, now, maxAge, maxFuture)
  }

  function VerifyFields(lib: Library, fields: map<string, Json>, now: int, maxAge: int, maxFuture: int): Outcome<Payload>
  {
    var version, issued := Get(fields, "schema_version"), Get(fields, "issued_at");
    if version != JInt(1) && version != JBool(true) then Failed(BadSchemaVersion)
    else if !issued.JString? || Strip(issued.text) == "" then Failed(IssuedAtRequired)
    else
      match lib.parse(ForParse(Strip(issued.text)))
      case NotATimestamp => Failed(IssuedAtInvalid)
      case WithoutOffset => Failed(IssuedAtWithoutOffset)
      case At(micros) =>
        if now - micros > maxAge * SECOND then Failed(Expired)
        else if now - micros < -maxFuture * SECOND then Failed(FromTheFuture)
        else
          var tg, internalId := Get(fields, "telegram_user_id"), Get(fields, "internal_user_id");
          if !tg.JInt? || !ValidTelegramId(tg.number) then Failed(TelegramIdInvalid)
          else if !internalId.JNull? && !internalId.JString? then Failed(InternalIdInvalid)
          else
            Ok(Payload(Strip(issued.text), tg.number,
                       NormalizeInternalUserId(if internalId.JString? then Some(internalId.text) else None)))
  }

  // ---- The verifier undoes the creator ----

  /** A SHA-256 digest in hexadecimal. */
  predicate IsHexDigest(m: string)
  {
    |m| == 64 && forall i :: 0 <= i < |m| ==> '0' <= m[i] <= '9' || 'a' <= m[i] <= 'f'
  }

  ghost predicate DigestOk(lib: Library, secret: string)
  {
    forall text :: IsHexDigest(lib.mac(secret, text))
  }

  /** Date and time of a second as isoformat writes them, and read back with a zero offset. */
  predicate ClockOk(lib: Library, second: int)
  {
    var d := lib.dateTime(second);
    |d| == 19 && IsPlain(d) && !IsSpace(d[0]) && lib.parse(d + "+00:00") == At(second * SECOND)
  }

  predicate InWindow(now: int, issued: int, maxAge: int, maxFuture: int)
  {
    -maxFuture * SECOND <= now - issued <= maxAge * SECOND
  }

  lemma {:induction false} LowerKeepsDigest(m: string)
    requires forall i :: 0 <= i < |m| ==> '0' <= m[i] <= '9' || 'a' <= m[i] <= 'f'
    ensures Lower(m) == m && IsAscii(m)
  {
    if m != "" {
      LowerKeepsDigest(m[1..]);
      assert m == [m[0]] + m[1..];
    }
  }

  lemma TextUndoesBytes(s: string)
    requires IsPrintable(s)
    ensures Text(Bytes(s)) == Some(s)
  {
    assert forall i :: 0 <= i < |s| ==> Bytes(s)[i] < 128;
    assert Text(Bytes(s)).value == s;
  }

  lemma ReferenceDecodes(json: string)
    requires IsPrintable(json) && |json| > 1
    ensures var id := Encode(Bytes(json));
            id != "" && IsTrimmed(id) && Decode(id) == Some(Bytes(json))
  {
    DecodeUndoesEncode(Bytes(json));
    EncodeIsUnpadded(Bytes(json));
  }

  /** The reference of a payload reads back as the payload's members. */
  lemma ReferenceReadsBack(p: Payload)
    ensures var id := ReferenceId(p);
            id != "" && IsTrimmed(id) && Decode(id).Some?
            && Text(Decode(id).value) == Some(Dumps(Members(p)))
            && Loads(Dumps(Members(p))) == Object(Collect(Members(p), map[]))
  {
    var json := Dumps(Members(p));
    DumpsIsPrintable(Members(p));
    DumpsIsLong(Members(p));
    ReferenceDecodes(json);
    TextUndoesBytes(json);
    LoadsUndoesDumps(Members(p));
  }

  lemma DumpsIsLong(members: seq<Member>)
    ensures |Dumps(members)| > 1
  {
  }

  lemma FieldsOf(p: Payload)
    ensures var fields := Collect(Members(p), map[]);
            Get(fields, "schema_version") == JInt(1) && Get(fields, "issued_at") == JString(p.issuedAt)
            && Get(fields, "telegram_user_id") == JInt(p.telegramId)
            && Get(fields, "internal_user_id") == if p.internalId.Some? then JString(p.internalId.value) else JNull
  {
    var m3 := [("telegram_user_id", JInt(p.telegramId))];
    var m2 := [("schema_version", JInt(1))] + m3;
    var m1 := [("issued_at", JString(p.issuedAt))] + m2;
    assert m3[1..] == [] && m2[1..] == m3 && m1[1..] == m2;
    KeysDiffer();
    var f0: map<string, Json> := if p.internalId.Some? then map["internal_user_id" := JString(p.internalId.value)] else map[];
    if p.internalId.Some? {
      assert Members(p) == [("internal_user_id", JString(p.internalId.value))] + m1;
      assert Members(p)[1..] == m1;
      assert f0 == map[]["internal_user_id" := JString(p.internalId.value)];
    } else {
      assert Members(p) == m1;
    }
    var f1 := f0["issued_at" := JString(p.issuedAt)];
    var f2 := f1["schema_version" := JInt(1)];
    var f3 := f2["telegram_user_id" := JInt(p.telegramId)];
    assert Collect(m3, f2) == Collect([], f3) == f3;
    assert Collect(m2, f1) == Collect(m3, f2);
    assert Collect(m1, f0) == Collect(m2, f1);
    assert Collect(Members(p), map[]) == Collect(m1, f0);
  }

  lemma KeysDiffer()
    ensures "issued_at" != "schema_version" && "issued_at" != "telegram_user_id" && "issued_at" != "internal_user_id"
    ensures "schema_version" != "telegram_user_id" && "schema_version" != "internal_user_id"
    ensures "telegram_user_id" != "internal_user_id"
  {
    assert "telegram_user_id"[0] != "internal_user_id"[0];
    assert |"issued_at"| == 9 && |"schema_version"| == 14 && |"telegram_user_id"| == 16 && |"internal_user_id"| == 16;
  }

  lemma StampReadsBack(lib: Library, second: int)
    requires ClockOk(lib, second)
    ensures var stamp := lib.dateTime(second) + "Z";
            Strip(stamp) == stamp != "" && ForParse(stamp) == lib.dateTime(second) + "+00:00"
  {
    var stamp := lib.dateTime(second) + "Z";
    assert stamp[0] == lib.dateTime(second)[0] && stamp[|stamp| - 1] == 'Z';
    TrimmedStays(stamp);
    assert stamp[..|stamp| - 1] == lib.dateTime(second);
  }

  lemma NormalizedStays(id: Option<string>)
    ensures NormalizeInternalUserId(NormalizeInternalUserId(id)) == NormalizeInternalUserId(id)
  {
    if id.Some? {
      StripIsTrimmed(id.value);
    }
  }

  lemma FieldsVerify(lib: Library, p: Payload, second: int, now: int, maxAge: int, maxFuture: int)
    requires ClockOk(lib, second) && p.issuedAt == lib.dateTime(second) + "Z" && ValidTelegramId(p.telegramId)
    requires NormalizeInternalUserId(p.internalId) == p.internalId && maxAge > 0 && maxFuture >= 0
    ensures VerifyFields(lib, Collect(Members(p), map[]), now, maxAge, maxFuture)
            == if now - second * SECOND > maxAge * SECOND then Failed(Expired)
               else if now - second * SECOND < -maxFuture * SECOND then Failed(FromTheFuture)
               else Ok(p)
  {
    FieldsOf(p);
    StampReadsBack(lib, second);
  }

  /** Verification of a well-formed signed reference is that of its fields. */
  lemma ProofAccepted(lib: Library, id: string, secret: string, json: string, fields: map<string, Json>,
                                         now: int, maxAge: int, maxFuture: int)
    requires id != "" && IsTrimmed(id) && |id| <= 2048 && IsHexDigest(lib.mac(secret, id)) && maxAge > 0 && maxFuture >= 0
    requires Decode(id).Some? && Text(Decode(id).value) == Some(json) && Loads(json) == Object(fields)
    ensures Verify(lib, id, lib.mac(secret, id), secret, now, maxAge, maxFuture) == VerifyFields(lib, fields, now, maxAge, maxFuture)
  {
    var proof := lib.mac(secret, id);
    TrimmedStays(id);
    DigestStays(proof);
    PastProof(lib, id, proof, secret, now, maxAge, maxFuture);
  }

  lemma DigestStays(m: string)
    requires IsHexDigest(m)
    ensures Strip(m) == m && Lower(m) == m && IsAscii(m)
  {
    TrimmedStays(m);
    LowerKeepsDigest(m);
  }

  lemma PastProof(lib: Library, id: string, proof: string, secret: string, now: int, maxAge: int, maxFuture: int)
    requires Strip(id) == id && 0 < |id| <= 2048 && maxAge > 0 && maxFuture >= 0
    requires Strip(proof) == proof == Lower(proof) && 0 < |proof| <= 256 && IsAscii(proof) && proof == lib.mac(secret, id)
    ensures Verify(lib, id, proof, secret, now, maxAge, maxFuture) == VerifyDecoded(lib, id, now, maxAge, maxFuture)
  {
  }

  /** Verifying a created reference: what was put in comes out, exactly when the reference fits the length
      limit and the age, counted from the truncated second, lies in the window. */
  lemma VerifyUndoesCreate(lib: Library, telegramId: int, internalId: Option<string>, secret: string,
                                              createdAt: int, now: int, maxAge: int, maxFuture: int) returns (s: SignedReference)
    requires ValidTelegramId(telegramId) && maxAge > 0 && maxFuture >= 0
    requires ClockOk(lib, createdAt / SECOND) && DigestOk(lib, secret)
    ensures Create(lib, telegramId, internalId, secret, createdAt) == Ok(s)
    ensures s.payload == Payload(lib.dateTime(createdAt / SECOND) + "Z", telegramId, NormalizeInternalUserId(internalId))
    ensures var issued := createdAt / SECOND * SECOND;
            Verify(lib, s.id, s.proof, secret, now, maxAge, maxFuture)
            == if |s.id| > 2048 then Failed(IdTooLong)
               else if InWindow(now, issued, maxAge, maxFuture) then Ok(s.payload)
               else if now > issued then Failed(Expired)
               else Failed(FromTheFuture)
  {
    s := Create(lib, telegramId, internalId, secret, createdAt).value;
    ReferenceReadsBack(s.payload);
    NormalizedStays(internalId);
    FieldsVerify(lib, s.payload, createdAt / SECOND, now, maxAge, maxFuture);
    if |s.id| <= 2048 {
      ProofAccepted(lib, s.id, secret, Dumps(Members(s.payload)), Collect(Members(s.payload), map[]), now, maxAge, maxFuture);
    } else {
      TooLong(lib, s.id, s.proof, secret, now, maxAge, maxFuture);
    }
  }

  lemma TooLong(lib: Library, id: string, proof: string, secret: string, now: int, maxAge: int, maxFuture: int)
    requires IsTrimmed(id) && |id| > 2048 && maxAge > 0 && maxFuture >= 0
    ensures Verify(lib, id, proof, secret, now, maxAge, maxFuture) == Failed(IdTooLong)
  {
    TrimmedStays(id);
  }

  // ---- When a created reference fits ----

  function Pow10(k: nat): nat
  {
    if k == 0 then 1 else 10 * Pow10(k - 1)
  }

  lemma {:induction false} DigitsLength(n: nat, k: nat)
    requires k > 0 && n < Pow10(k)
    ensures |Digits(n)| <= k
  {
    if n >= 10 {
      DigitsLength(n / 10, k - 1);
    }
  }

  lemma Pow10Doubles(k: nat)
    ensures Pow10(k + k) == Pow10(k) * Pow10(k)
  {
    Pow10Adds(k, k);
  }

  lemma {:induction false} Pow10Adds(j: nat, k: nat)
    ensures Pow10(j + k) == Pow10(j) * Pow10(k)
  {
    if j > 0 {
      Pow10Adds(j - 1, k);
      TenTimes(Pow10(j - 1), Pow10(k));
    }
  }

  lemma TenTimes(a: nat, b: nat)
    ensures 10 * (a * b) == (10 * a) * b
  {
  }

  lemma MemberLength(key: string, v: Json, rest: seq<Member>)
    requires IsPlain(key)
    ensures |WriteMembers([(key, v)] + rest)| == 3 + |key| + |Write(v)| + (if rest != [] then 1 else 0) + |WriteMembers(rest)|
  {
    assert ([(key, v)] + rest)[1..] == rest;
    PlainIsNotEscaped(key);
  }

  lemma ConstantLengths()
    ensures IsPlain("telegram_user_id") && |"telegram_user_id"| == 16
    ensures IsPlain("schema_version") && |"schema_version"| == 14
    ensures IsPlain("issued_at") && |"issued_at"| == 9
    ensures IsPlain("internal_user_id") && |"internal_user_id"| == 16
    ensures |Write(JInt(1))| == 1
  {
  }

  lemma MemberListLength(keys: (string, string, string), stamp: Json, version: Json, id: Json)
    requires IsPlain(keys.0) && IsPlain(keys.1) && IsPlain(keys.2)
    ensures |WriteMembers([(keys.0, stamp), (keys.1, version), (keys.2, id)])|
            == 12 + |keys.0| + |keys.1| + |keys.2| + |Write(stamp)| + |Write(version)| + |Write(id)|
  {
    var m3 := [(keys.2, id)];
    var m2 := [(keys.1, version)] + m3;
    MemberLength(keys.2, id, []);
    MemberLength(keys.1, version, m3);
    MemberLength(keys.0, stamp, m2);
    assert [(keys.2, id)] + [] == m3;
    assert [(keys.0, stamp), (keys.1, version), (keys.2, id)] == [(keys.0, stamp)] + m2;
  }

  lemma AlwaysPresentLength(p: Payload)
    requires |p.issuedAt| == 20 && IsPlain(p.issuedAt) && p.telegramId >= 0
    ensures |WriteMembers(AlwaysPresent(p))| == 74 + |Digits(p.telegramId)|
  {
    ConstantLengths();
    PlainIsNotEscaped(p.issuedAt);
    MemberListLength(("issued_at", "schema_version", "telegram_user_id"), JString(p.issuedAt), JInt(1), JInt(p.telegramId));
  }

  lemma JsonLength(p: Payload)
    requires |p.issuedAt| == 20 && IsPlain(p.issuedAt) && p.telegramId >= 0
    ensures |Dumps(Members(p))| == 75 + |Digits(p.telegramId)| + if p.internalId.Some? then 22 + |Escape(p.internalId.value)| else 0
  {
    AlwaysPresentLength(p);
    if p.internalId.Some? {
      MembersLengthWithId(p, AlwaysPresent(p));
    } else {
      MembersWithoutId(p, AlwaysPresent(p));
    }
  }

  lemma MembersLengthWithId(p: Payload, rest: seq<Member>)
    requires p.internalId.Some? && rest == AlwaysPresent(p)
    ensures |WriteMembers(Members(p))| == 22 + |Escape(p.internalId.value)| + |WriteMembers(rest)|
  {
    InternalIdLength(p.internalId.value, rest);
  }

  lemma MembersWithoutId(p: Payload, rest: seq<Member>)
    requires p.internalId.None? && rest == AlwaysPresent(p)
    ensures Members(p) == rest
  {
  }

  lemma InternalIdLength(text: string, rest: seq<Member>)
    requires rest != []
    ensures |WriteMembers([("internal_user_id", JString(text))] + rest)| == 22 + |Escape(text)| + |WriteMembers(rest)|
  {
    ConstantLengths();
    FirstMemberLength("internal_user_id", text, rest);
  }

  lemma FirstMemberLength(key: string, text: string, rest: seq<Member>)
    requires IsPlain(key) && rest != []
    ensures |WriteMembers([(key, JString(text))] + rest)| == 6 + |key| + |Escape(text)| + |WriteMembers(rest)|
  {
    assert |Write(JString(text))| == 2 + |Escape(text)|;
    MemberLength(key, JString(text), rest);
  }

  /** The creator has no length check; what it creates is too long for the verifier exactly when the
      escaped internal id and the digits of the Telegram id come to more than 1439 characters. */
  lemma CreatedFitsExactlyWhen(lib: Library, telegramId: int, internalId: Option<string>, secret: string,
                                                  createdAt: int) returns (s: SignedReference)
    requires ValidTelegramId(telegramId) && ClockOk(lib, createdAt / SECOND)
    ensures Create(lib, telegramId, internalId, secret, createdAt) == Ok(s)
    ensures var normal := NormalizeInternalUserId(internalId);
            |s.id| <= 2048 <==> (normal.Some? ==> |Escape(normal.value)| + |Digits(telegramId)| <= 1439)
  {
    s := CreatedPayload(lib, telegramId, internalId, secret, createdAt);
    TelegramIdLength(telegramId);
    ReferenceLength(s.payload);
  }

  lemma {:induction false} CreatedPayload(lib: Library, telegramId: int, internalId: Option<string>, secret: string,
                                          createdAt: int) returns (s: SignedReference)
    requires ValidTelegramId(telegramId) && ClockOk(lib, createdAt / SECOND)
    ensures Create(lib, telegramId, internalId, secret, createdAt) == Ok(s) && s.id == ReferenceId(s.payload)
    ensures |s.payload.issuedAt| == 20 && IsPlain(s.payload.issuedAt)
    ensures s.payload.telegramId == telegramId && s.payload.internalId == NormalizeInternalUserId(internalId)
  {
    var stamp := lib.dateTime(createdAt / SECOND) + "Z";
    StampIsPlain(lib.dateTime(createdAt / SECOND));
    var p := Payload(stamp, telegramId, NormalizeInternalUserId(internalId));
    s := SignedReference(ReferenceId(p), lib.mac(secret, ReferenceId(p)), p);
  }

  lemma StampIsPlain(d: string)
    requires |d| == 19 && IsPlain(d)
    ensures |d + "Z"| == 20 && IsPlain(d + "Z")
  {
  }

  lemma ReferenceLength(p: Payload)
    requires |p.issuedAt| == 20 && IsPlain(p.issuedAt) && p.telegramId >= 0
    ensures var n := 75 + |Digits(p.telegramId)| + if p.internalId.Some? then 22 + |Escape(p.internalId.value)| else 0;
            |ReferenceId(p)| == (4 * n + 2) / 3
  {
    JsonLength(p);
    DumpsIsPrintable(Members(p));
    EncodeIsUnpadded(Bytes(Dumps(Members(p))));
  }

  lemma TelegramIdLength(n: int)
    requires ValidTelegramId(n)
    ensures |Digits(n)| <= 19
  {
    assert Pow10(1) == 10 * Pow10(0);
    Pow10Doubles(1);
    Pow10Doubles(2);
    Pow10Doubles(4);
    Pow10Doubles(8);
    Pow10Adds(16, 2);
    Pow10Adds(18, 1);
    DigitsLength(n, 19);
  }

  function ConventionalId(telegramId: int): string
  {
    "u" + Signed(telegramId)
  }

  lemma ConventionalIdIsPlain(telegramId: int)
    requires ValidTelegramId(telegramId)
    ensures var id := ConventionalId(telegramId);
            NormalizeInternalUserId(Some(id)) == Some(id) && Escape(id) == id && |id| == 1 + |Digits(telegramId)|
  {
    var id := ConventionalId(telegramId);
    DigitsAreDigits(telegramId);
    assert id[0] == 'u' && forall i :: 0 < i < |id| ==> id[i] == Digits(telegramId)[i - 1] && IsDigit(id[i]);
    TrimmedStays(id);
    PlainIsNotEscaped(id);
  }

  /** Ids of the identity convention are never too long. */
  lemma ConventionalIdsFit(lib: Library, telegramId: int, secret: string, createdAt: int) returns (s: SignedReference)
    requires ValidTelegramId(telegramId) && ClockOk(lib, createdAt / SECOND)
    ensures Create(lib, telegramId, Some(ConventionalId(telegramId)), secret, createdAt) == Ok(s) && |s.id| <= 2048
  {
    ConventionalIdIsPlain(telegramId);
    TelegramIdLength(telegramId);
    s := CreatedFitsExactlyWhen(lib, telegramId, Some(ConventionalId(telegramId)), secret, createdAt);
  }

  // ---- From reference to identity ----

  /** What a fulfilment event says about its payer; proofs and ids come stripped. */
  datatype PayerFields = PayerFields(telegramId: Option<int>, id: Option<string>, proof: Option<string>, paidAt: int)

  datatype IngressSettings = IngressSettings(secret: Option<string>, maxAge: int, strict: bool)

  function ResolveIdentity(lib: Library, f: PayerFields, settings: IngressSettings, now: int): Outcome<(int, string)>
  {
    var hasReference := f.id.Some? && f.id.value != "" && f.proof.Some? && f.proof.value != "";
    if settings.strict && !hasReference then Failed(MissingReference)
    else if !hasReference then
      if f.telegramId.None? then Failed(TelegramIdRequired) else Ok((f.telegramId.value, ConventionalId(f.telegramId.value)))
    else if settings.secret.None? || settings.secret.value == "" then Failed(NoSecret)
    else
      match Verify(lib, f.id.value, f.proof.value, settings.secret.value, now, settings.maxAge, MAX_FUTURE_SECONDS)
      case Failed(e) => Failed(e)
      case Ok(p) =>
        var issued := lib.parse(ForParse(p.issuedAt));
        if issued.At? && f.paidAt < issued.micros - MAX_FUTURE_SECONDS * SECOND then Failed(PaidTooEarly)
        else if f.telegramId.Some? && f.telegramId.value != p.telegramId then Failed(TelegramIdMismatch)
        else Ok((p.telegramId, if p.internalId.Some? then p.internalId.value else ConventionalId(p.telegramId)))
  }

  /** A created reference resolves to the identity it was created for, exactly when its secret is not empty,
      it fits, is in its window, the payment does not precede it, and no other Telegram id is named. */
  lemma CreatedReferenceResolves(lib: Library, telegramId: int, internalId: Option<string>, secret: string,
                                                    createdAt: int, named: Option<int>, paidAt: int,
                                                    maxAge: int, strict: bool, now: int) returns (s: SignedReference)
    requires ValidTelegramId(telegramId) && maxAge > 0
    requires ClockOk(lib, createdAt / SECOND) && DigestOk(lib, secret)
    ensures Create(lib, telegramId, internalId, secret, createdAt) == Ok(s)
    ensures var f := PayerFields(named, Some(s.id), Some(s.proof), paidAt);
            var r := ResolveIdentity(lib, f, IngressSettings(Some(secret), maxAge, strict), now);
            var issued := createdAt / SECOND * SECOND;
            var user := NormalizeInternalUserId(internalId);
            (r.Ok? <==> secret != "" && |s.id| <= 2048 && InWindow(now, issued, maxAge, 300)
                        && paidAt >= issued - 300 * SECOND && (named.Some? ==> named.value == telegramId))
            && (r.Ok? ==> r.value == (telegramId, if user.Some? then user.value else ConventionalId(telegramId)))
  {
    s := VerifyUndoesCreate(lib, telegramId, internalId, secret, createdAt, now, maxAge, MAX_FUTURE_SECONDS);
    ReferenceIsNotEmpty(s.payload);
    StampReadsBack(lib, createdAt / SECOND);
    ResolvesVerified(lib, PayerFields(named, Some(s.id), Some(s.proof), paidAt), IngressSettings(Some(secret), maxAge, strict), now,
                     Verify(lib, s.id, s.proof, secret, now, maxAge, MAX_FUTURE_SECONDS));
  }

  /** With both halves of a reference and a secret given, its verification decides. */
  lemma ResolvesVerified(lib: Library, f: PayerFields, settings: IngressSettings, now: int, v: Outcome<Payload>)
    requires f.id.Some? && f.id.value != "" && f.proof.Some? && f.proof.value != "" && settings.secret.Some?
    requires v == Verify(lib, f.id.value, f.proof.value, settings.secret.value, now, settings.maxAge, MAX_FUTURE_SECONDS)
    ensures var r := ResolveIdentity(lib, f, settings, now);
            if settings.secret.value == "" then r == Failed(NoSecret)
            else match v
            case Failed(e) => r == Failed(e)
            case Ok(p) =>
              var at := lib.parse(ForParse(p.issuedAt));
              (r.Ok? <==> !(at.At? && f.paidAt < at.micros - 300 * SECOND) && (f.telegramId.Some? ==> f.telegramId.value == p.telegramId))
              && (r.Ok? ==> r.value == (p.telegramId, if p.internalId.Some? then p.internalId.value else ConventionalId(p.telegramId)))
  {
  }

  lemma ReferenceIsNotEmpty(p: Payload)
    ensures ReferenceId(p) != ""
  {
    ReferenceReadsBack(p);
  }
}
