/**
 * The eSewa request format shared by both copies of the payment-initiation
 * handler: the transaction UUID, the canonical signed message, the form
 * payload sent to the gateway, and how the gateway checks a payload
 * (re-signing the fields that `signed_field_names` lists, in that order).
 *
 * HMAC-SHA256 rendered as Base64 (RFC 2104 over FIPS 180-4, section 4 of
 * RFC 4648) is not computed here: it is the uninterpreted `Signer`
 * passed in by the caller, applied as `sign(secretKey, message)`.
 */
module Esewa {
  import opened Wrappers
  import opened Strings

  /** `crypto.createHmac('sha256', key).update(message).digest('base64')`. */
  type Signer = (string, string) -> string

  /** The gateway's form endpoint that both copies return as `paymentUrl`. */
  const PaymentUrl: string := "https://rc-epay.esewa.com.np/api/epay/main/v2/form"

  /** The literal `signed_field_names` value of every payload. */
  const SignedFieldNames: string := "total_amount,transaction_uuid,product_code"

  /** The fields the signature covers, in the order they are signed. */
  const SignedFields: seq<string> := ["total_amount", "transaction_uuid", "product_code"]

  /**
   * `generateEsewaSignature(secretKey, signatureString)`. The key is read
   * from the environment; when it is unset, `createHmac` throws (None).
   * An empty key is accepted and signs like any other.
   */
  function GenerateSignature(sign: Signer, secretKey: Option<string>, message: string): (r: Option<string>)
    ensures r.Some? <==> secretKey.Some?
    ensures r.Some? ==> r.value == sign(secretKey.value, message)
  {
    match secretKey
    case None => None
    case Some(key) => Some(sign(key, message))
  }

  /** `${Date.now()}-${suffix}`: the millisecond timestamp, a dash, and the suffix. */
  function TransactionUuid(timestamp: nat, suffix: string): string {
    NatToString(timestamp) + "-" + suffix
  }

  /** `total_amount=<amount>,transaction_uuid=<uuid>,product_code=<code>`. */
  function SignatureMessage(amount: string, uuid: string, productCode: string): string {
    "total_amount=" + amount + ",transaction_uuid=" + uuid + ",product_code=" + productCode
  }

  /** The gateway form payload (`formData`). */
  datatype FormData = FormData(
    amount: string,
    tax_amount: string,
    total_amount: string,
    transaction_uuid: string,
    product_code: string,
    product_service_charge: string,
    product_delivery_charge: string,
    success_url: string,
    failure_url: string,
    signed_field_names: string,
    signature: string)

  /**
   * The payload both copies build: every charge is "0", `amount` and
   * `total_amount` are the request amount, the callbacks hang off the
   * configured origin.
   */
  function BuildFormData(amount: string, uuid: string, productCode: string, origin: string, signature: string): FormData {
    FormData(
      amount := amount,
      tax_amount := "0",
      total_amount := amount,
      transaction_uuid := uuid,
      product_code := productCode,
      product_service_charge := "0",
      product_delivery_charge := "0",
      success_url := origin + "/success?method=esewa",
      failure_url := origin,
      signed_field_names := SignedFieldNames,
      signature := signature)
  }

  /** `Object.entries(formData)`: the key/value pairs in declaration order. */
  function Entries(fd: FormData): seq<(string, string)> {
    [ ("amount", fd.amount),
      ("tax_amount", fd.tax_amount),
      ("total_amount", fd.total_amount),
      ("transaction_uuid", fd.transaction_uuid),
      ("product_code", fd.product_code),
      ("product_service_charge", fd.product_service_charge),
      ("product_delivery_charge", fd.product_delivery_charge),
      ("success_url", fd.success_url),
      ("failure_url", fd.failure_url),
      ("signed_field_names", fd.signed_field_names),
      ("signature", fd.signature) ]
  }

  // ---------------------------------------------------------------------
  // The gateway's side: what it can check from the posted fields alone
  // ---------------------------------------------------------------------

  /** The value of the first posted field called `name`. */
  function Lookup(fields: seq<(string, string)>, name: string): (r: Option<string>)
    ensures r.Some? <==> exists i :: 0 <= i < |fields| && fields[i].0 == name
    ensures r.Some? ==> exists i :: 0 <= i < |fields| && fields[i] == (name, r.value)
    decreases |fields|
  {
    if |fields| == 0 then None
    else if fields[0].0 == name then Some(fields[0].1)
    else Lookup(fields[1..], name)
  }

  /** The first field called `name` decides the lookup. */
  lemma {:induction false} LookupAt(fields: seq<(string, string)>, i: nat, name: string)
    requires i < |fields| && fields[i].0 == name
    requires forall j :: 0 <= j < i ==> fields[j].0 != name
    ensures Lookup(fields, name) == Some(fields[i].1)
    decreases i
  {
    if i > 0 {
      LookupAt(fields[1..], i - 1, name);
    }
  }

  /** `name=value` for each listed name, in the listed order; None if a name is not posted. */
  function SignedPairs(fields: seq<(string, string)>, names: seq<string>): (r: Option<seq<string>>)
    ensures r.Some? ==> |r.value| == |names|
    decreases |names|
  {
    if |names| == 0 then Some([])
    else
      match Lookup(fields, names[0])
      case None => None
      case Some(v) =>
        match SignedPairs(fields, names[1..])
        case None => None
        case Some(rest) => Some([names[0] + "=" + v] + rest)
  }

  /**
   * The gateway accepts a posting when the message rebuilt from the fields
   * named in `signed_field_names` (comma-separated, in that order, joined
   * as `key=value` with commas) signs to the posted `signature`.
   */
  predicate GatewayAccepts(sign: Signer, secretKey: string, fields: seq<(string, string)>) {
    match Lookup(fields, "signed_field_names")
    case None => false
    case Some(names) =>
      match SignedPairs(fields, Split(names, ','))
      case None => false
      case Some(pairs) => Lookup(fields, "signature") == Some(sign(secretKey, Join(pairs, ',')))
  }

  /** The literal list of signed field names is the comma-join of the signed fields. */
  lemma SignedFieldNamesSplit()
    ensures Split(SignedFieldNames, ',') == SignedFields
  {
    assert SignedFieldNames == Join(SignedFields, ',');
    SplitJoin(SignedFields, ',');
  }

  // Each field the gateway reads, looked up by name in the posted payload,
  // has its payload value (the names before it are all different).

  lemma TotalAmountPosted(fd: FormData)
    ensures Lookup(Entries(fd), "total_amount") == Some(fd.total_amount)
  {
    LookupAt(Entries(fd), 2, "total_amount");
  }

  lemma TransactionUuidPosted(fd: FormData)
    ensures Lookup(Entries(fd), "transaction_uuid") == Some(fd.transaction_uuid)
  {
    LookupAt(Entries(fd), 3, "transaction_uuid");
  }

  lemma ProductCodePosted(fd: FormData)
    ensures Lookup(Entries(fd), "product_code") == Some(fd.product_code)
  {
    var e := Entries(fd);
    assert e[2].0 != "product_code" by { assert e[2].0[0] != "product_code"[0]; }
    LookupAt(e, 4, "product_code");
  }

  lemma SignedFieldNamesPosted(fd: FormData)
    ensures Lookup(Entries(fd), "signed_field_names") == Some(fd.signed_field_names)
  {
    LookupAt(Entries(fd), 9, "signed_field_names");
  }

  lemma SignaturePosted(fd: FormData)
    ensures Lookup(Entries(fd), "signature") == Some(fd.signature)
  {
    LookupAt(Entries(fd), 10, "signature");
  }

  /** The gateway rebuilds `key=value` for each signed field from the posted fields. */
  lemma SignedPairsOfFields(fields: seq<(string, string)>, amount: string, uuid: string, productCode: string)
    requires Lookup(fields, "total_amount") == Some(amount)
    requires Lookup(fields, "transaction_uuid") == Some(uuid)
    requires Lookup(fields, "product_code") == Some(productCode)
    ensures SignedPairs(fields, SignedFields)
         == Some(["total_amount=" + amount, "transaction_uuid=" + uuid, "product_code=" + productCode])
  {
    var names := SignedFields;
    assert "total_amount" + "=" == "total_amount=";
    assert "transaction_uuid" + "=" == "transaction_uuid=";
    assert "product_code" + "=" == "product_code=";
    assert SignedPairs(fields, []) == Some([]);
    assert names[2..] == ["product_code"] && names[2..][1..] == [];
    assert ["product_code=" + productCode] + [] == ["product_code=" + productCode];
    assert SignedPairs(fields, names[2..]) == Some(["product_code=" + productCode]);
    assert names[1..][0] == "transaction_uuid" && names[1..][1..] == names[2..];
    assert ["transaction_uuid=" + uuid] + ["product_code=" + productCode] == ["transaction_uuid=" + uuid, "product_code=" + productCode];
    assert SignedPairs(fields, names[1..]) == Some(["transaction_uuid=" + uuid, "product_code=" + productCode]);
    assert names[0] == "total_amount";
    assert ["total_amount=" + amount] + ["transaction_uuid=" + uuid, "product_code=" + productCode]
        == ["total_amount=" + amount, "transaction_uuid=" + uuid, "product_code=" + productCode];
  }

  /** The source's message template is the comma-join of those `key=value` pairs. */
  lemma SignatureMessageIsCanonical(amount: string, uuid: string, productCode: string)
    ensures Join(["total_amount=" + amount, "transaction_uuid=" + uuid, "product_code=" + productCode], ',')
         == SignatureMessage(amount, uuid, productCode)
  {
    Join3("total_amount=" + amount, "transaction_uuid=" + uuid, "product_code=" + productCode, ',');
    Regroup("total_amount=", amount, "transaction_uuid=", uuid, "product_code=", productCode, ',');
    assert [','] + "transaction_uuid=" == ",transaction_uuid=";
    assert [','] + "product_code=" == ",product_code=";
  }

  /** Moving each separator onto the key that follows it. */
  lemma Regroup(k1: string, v1: string, k2: string, v2: string, k3: string, v3: string, sep: char)
    ensures (k1 + v1) + [sep] + (k2 + v2) + [sep] + (k3 + v3) == k1 + v1 + ([sep] + k2) + v2 + ([sep] + k3) + v3
  {
  }

  /**
   * Cross-field consistency: a payload built with the signature of its own
   * canonical message is accepted by the gateway, and its signature covers
   * exactly its `total_amount`, `transaction_uuid` and `product_code`.
   */
  lemma PayloadSelfConsistent(sign: Signer, secretKey: string, amount: string, uuid: string, productCode: string, origin: string)
    ensures var fd := BuildFormData(amount, uuid, productCode, origin, sign(secretKey, SignatureMessage(amount, uuid, productCode)));
            && fd.signature == sign(secretKey, SignatureMessage(fd.total_amount, fd.transaction_uuid, fd.product_code))
            && GatewayAccepts(sign, secretKey, Entries(fd))
  {
    var fd := BuildFormData(amount, uuid, productCode, origin, sign(secretKey, SignatureMessage(amount, uuid, productCode)));
    var e := Entries(fd);
    SignedFieldNamesSplit();
    TotalAmountPosted(fd);
    TransactionUuidPosted(fd);
    ProductCodePosted(fd);
    SignedPairsOfFields(e, fd.total_amount, fd.transaction_uuid, fd.product_code);
    SignatureMessageIsCanonical(amount, uuid, productCode);
    SignedFieldNamesPosted(fd);
    SignaturePosted(fd);
  }

  // ---------------------------------------------------------------------
  // Reading a transaction UUID back
  // ---------------------------------------------------------------------

  /** The timestamp text (before the first dash) and the suffix (after it). */
  function SplitTransactionUuid(uuid: string): (string, string) {
    var stamp := Split(uuid, '-')[0];
    (stamp, if |stamp| < |uuid| then uuid[|stamp| + 1..] else "")
  }

  /**
   * A transaction UUID determines its timestamp and its suffix: the
   * timestamp has no dash, so the first dash separates the two, even when
   * the suffix (a uuid) has dashes of its own.
   */
  lemma {:induction false} TransactionUuidRoundTrip(timestamp: nat, suffix: string)
    ensures SplitTransactionUuid(TransactionUuid(timestamp, suffix)) == (NatToString(timestamp), suffix)
    ensures ParseNat(SplitTransactionUuid(TransactionUuid(timestamp, suffix)).0) == timestamp
  {
    var t := NatToString(timestamp);
    var u := TransactionUuid(timestamp, suffix);
    assert '-' !in t;
    SplitAfterHead(t, suffix, '-');
    assert u == t + ['-'] + suffix;
    assert u[|t| + 1..] == suffix;
    ParseNatToString(timestamp);
  }

  /** A transaction UUID ends with a dash and the suffix. */
  lemma TransactionUuidEndsWithSuffix(timestamp: nat, suffix: string)
    ensures var u := TransactionUuid(timestamp, suffix);
            |u| > |suffix| && u[|u| - |suffix| - 1..] == "-" + suffix
  {
    var t := NatToString(timestamp);
    var u := TransactionUuid(timestamp, suffix);
    assert u == t + ("-" + suffix);
    assert u[|t|..] == "-" + suffix;
  }
}
