/**
 * The PayU edge function: credential check, the `initiate` action (pending
 * order, checkout parameters and request hash) and the `verify` action
 * (reverse-hash check, order settlement, plan upgrade, activity log and
 * notification).
 *
 * SHA-512 over the UTF-8 encoding of a string is not modelled: it is the
 * caller-supplied `Hasher`, constrained only to return 64 bytes.
 */
module PayU {
  import opened Common
  import opened Tables

  newtype byte = x: int | 0 <= x < 256

  /** A SHA-512 digest. */
  type Digest = d: seq<byte> | |d| == 64 witness seq(64, i => 0 as byte)

  /** `crypto.subtle.digest("SHA-512", new TextEncoder().encode(text))`. */
  type Hasher = string -> Digest

  // ---------------------------------------------------------------------------
  // Lower-case base16: `b.toString(16).padStart(2, '0')` joined over the digest

  /** A lower-case base16 digit. */
  predicate IsHexDigit(c: char) { '0' <= c <= '9' || 'a' <= c <= 'f' }

  function HexDigit(d: int): (c: char)
    requires 0 <= d < 16
    ensures IsHexDigit(c)
  {
    if d < 10 then ('0' as int + d) as char else ('a' as int + d - 10) as char
  }

  function HexByte(b: byte): (r: string)
    ensures |r| == 2 && IsHexDigit(r[0]) && IsHexDigit(r[1])
    ensures b < 16 ==> r[0] == '0'
  {
    [HexDigit(b as int / 16), HexDigit(b as int % 16)]
  }

  function Hex(bytes: seq<byte>): (r: string)
    ensures |r| == 2 * |bytes|
    ensures forall i :: 0 <= i < |r| ==> IsHexDigit(r[i])
  {
    if bytes == [] then "" else HexByte(bytes[0]) + Hex(bytes[1..])
  }

  /** The digit value of a lower-case hex character. */
  function HexValue(c: char): (r: Option<int>)
    ensures r.Some? <==> IsHexDigit(c)
    ensures r.Some? ==> 0 <= r.value < 16 && HexDigit(r.value) == c
  {
    if '0' <= c <= '9' then Some(c as int - '0' as int)
    else if 'a' <= c <= 'f' then Some(c as int - 'a' as int + 10)
    else None
  }

  /** Decoding of lower-case base16; anything else (odd length, other characters) fails. */
  function Unhex(s: string): (r: Option<seq<byte>>)
    decreases |s|
  {
    if |s| < 2 then (if s == [] then Some([]) else None)
    else
      var hi, lo, rest := HexValue(s[0]), HexValue(s[1]), Unhex(s[2..]);
      if hi.Some? && lo.Some? && rest.Some? then Some([(16 * hi.value + lo.value) as byte] + rest.value)
      else None
  }

  lemma ByteDigits(b: byte)
    ensures HexValue(HexByte(b)[0]) == Some(b as int / 16)
    ensures HexValue(HexByte(b)[1]) == Some(b as int % 16)
    ensures (16 * (b as int / 16) + b as int % 16) as byte == b
  {
  }

  /** Decoding the hex rendering gives back the bytes. */
  lemma {:induction false} UnhexHex(bytes: seq<byte>)
    ensures Unhex(Hex(bytes)) == Some(bytes)
  {
    if bytes != [] {
      var s := Hex(bytes);
      UnhexHex(bytes[1..]);
      assert s == HexByte(bytes[0]) + Hex(bytes[1..]);
      assert s[2..] == Hex(bytes[1..]);
      assert s[0] == HexByte(bytes[0])[0] && s[1] == HexByte(bytes[0])[1];
      ByteDigits(bytes[0]);
      assert [bytes[0]] + bytes[1..] == bytes;
    }
  }

  /** Distinct digests render as distinct hex strings. */
  lemma HexInjective(a: seq<byte>, b: seq<byte>)
    ensures Hex(a) == Hex(b) ==> a == b
  {
    UnhexHex(a);
    UnhexHex(b);
  }

  /** A SHA-512 digest renders as 128 lower-case hex characters. */
  lemma DigestHex(d: Digest)
    ensures |Hex(d)| == 128
    ensures forall i :: 0 <= i < 128 ==> IsHexDigit(Hex(d)[i])
  {
  }

  // ---------------------------------------------------------------------------
  // The two pipe-delimited hash inputs

  /** The request hash template: six fields, eleven pipes, then the salt. */
  function RequestHashInput(key: string, txnid: string, amount: string, productinfo: string,
                            firstname: string, email: string, salt: string): string
  {
    key + "|" + txnid + "|" + amount + "|" + productinfo + "|" + firstname + "|" + email
      + "|||||||||||" + salt
  }

  /** The reverse (response) hash template: salt, status, eleven pipes, then six fields in reverse order. */
  function ReverseHashInput(salt: string, status: string, email: string, firstname: string,
                            productinfo: string, amount: string, txnid: string, key: string): string
  {
    salt + "|" + status + "|||||||||||" + email + "|" + firstname + "|" + productinfo + "|"
      + amount + "|" + txnid + "|" + key
  }

  function EmptyFields(n: nat): seq<string> { seq(n, i => "") }

  /** The fields of the request hash: the ten slots after `email` (udf1..udf5 and five reserved) are empty. */
  function RequestHashFields(key: string, txnid: string, amount: string, productinfo: string,
                             firstname: string, email: string, salt: string): seq<string>
  {
    [key, txnid, amount, productinfo, firstname, email] + EmptyFields(10) + [salt]
  }

  /** The fields of the reverse hash. */
  function ReverseHashFields(salt: string, status: string, email: string, firstname: string,
                             productinfo: string, amount: string, txnid: string, key: string): seq<string>
  {
    [salt, status] + EmptyFields(10) + [email, firstname, productinfo, amount, txnid, key]
  }

  function Reversed<T>(s: seq<T>): (r: seq<T>)
    ensures |r| == |s|
    ensures forall i :: 0 <= i < |s| ==> r[i] == s[|s| - 1 - i]
  {
    seq(|s|, i requires 0 <= i < |s| => s[|s| - 1 - i])
  }

  /** The reverse hash lists the request hash's fields backwards, with the status after the salt. */
  lemma ReverseMirrorsRequest(key: string, txnid: string, amount: string, productinfo: string,
                              firstname: string, email: string, salt: string, status: string)
    ensures ReverseHashFields(salt, status, email, firstname, productinfo, amount, txnid, key)
         == [salt, status] + Reversed(RequestHashFields(key, txnid, amount, productinfo, firstname, email, salt))[1..]
  {
  }

  predicate NoPipe(s: string) { '|' !in s }

  /** When no field contains '|', the request hash input splits back into exactly its seventeen fields. */
  lemma RequestHashSplits(key: string, txnid: string, amount: string, productinfo: string,
                          firstname: string, email: string, salt: string)
    requires NoPipe(key) && NoPipe(txnid) && NoPipe(amount) && NoPipe(productinfo)
    requires NoPipe(firstname) && NoPipe(email) && NoPipe(salt)
    ensures Split(RequestHashInput(key, txnid, amount, productinfo, firstname, email, salt), '|')
         == RequestHashFields(key, txnid, amount, productinfo, firstname, email, salt)
  {
    var p10 := seq(10, i => '|');
    var t6 := p10 + salt;
    var t5 := email + "|" + t6;
    var t4 := firstname + "|" + t5;
    var t3 := productinfo + "|" + t4;
    var t2 := amount + "|" + t3;
    var t1 := txnid + "|" + t2;
    assert "|||||||||||" == "|" + p10;
    assert RequestHashInput(key, txnid, amount, productinfo, firstname, email, salt) == key + "|" + t1;
    SplitFree(salt, '|');
    SplitSeparators(10, salt, '|');
    var e := EmptyFields(10) + [salt];
    assert Split(t6, '|') == e;
    SplitField(email, t6, '|');
    SplitField(firstname, t5, '|');
    SplitField(productinfo, t4, '|');
    SplitField(amount, t3, '|');
    SplitField(txnid, t2, '|');
    SplitField(key, t1, '|');
    assert Split(key + "|" + t1, '|') == [key] + ([txnid] + ([amount] + ([productinfo] + ([firstname] + ([email] + e)))));
  }

  /** Hence the request hash input is its fields joined by '|', and it determines them. */
  lemma RequestHashLayout(key: string, txnid: string, amount: string, productinfo: string,
                          firstname: string, email: string, salt: string)
    requires NoPipe(key) && NoPipe(txnid) && NoPipe(amount) && NoPipe(productinfo)
    requires NoPipe(firstname) && NoPipe(email) && NoPipe(salt)
    ensures RequestHashInput(key, txnid, amount, productinfo, firstname, email, salt)
         == Join(RequestHashFields(key, txnid, amount, productinfo, firstname, email, salt), '|')
  {
    RequestHashSplits(key, txnid, amount, productinfo, firstname, email, salt);
    JoinSplit(RequestHashInput(key, txnid, amount, productinfo, firstname, email, salt), '|');
  }

  /** When no field contains '|', the reverse hash input splits back into exactly its eighteen fields. */
  lemma ReverseHashSplits(salt: string, status: string, email: string, firstname: string,
                          productinfo: string, amount: string, txnid: string, key: string)
    requires NoPipe(salt) && NoPipe(status) && NoPipe(email) && NoPipe(firstname)
    requires NoPipe(productinfo) && NoPipe(amount) && NoPipe(txnid) && NoPipe(key)
    ensures Split(ReverseHashInput(salt, status, email, firstname, productinfo, amount, txnid, key), '|')
         == ReverseHashFields(salt, status, email, firstname, productinfo, amount, txnid, key)
  {
    var p10 := seq(10, i => '|');
    var t6 := txnid + "|" + key;
    var t5 := amount + "|" + t6;
    var t4 := productinfo + "|" + t5;
    var t3 := firstname + "|" + t4;
    var t2 := email + "|" + t3;
    var t1 := status + "|" + (p10 + t2);
    assert "|||||||||||" == "|" + p10;
    assert ReverseHashInput(salt, status, email, firstname, productinfo, amount, txnid, key) == salt + "|" + t1;
    SplitFree(key, '|');
    SplitField(txnid, key, '|');
    SplitField(amount, t6, '|');
    SplitField(productinfo, t5, '|');
    SplitField(firstname, t4, '|');
    SplitField(email, t3, '|');
    var tail := [email] + ([firstname] + ([productinfo] + ([amount] + ([txnid] + [key]))));
    assert Split(t2, '|') == tail;
    SplitSeparators(10, t2, '|');
    SplitField(status, p10 + t2, '|');
    SplitField(salt, t1, '|');
    assert Split(salt + "|" + t1, '|') == [salt] + ([status] + (EmptyFields(10) + tail));
  }

  /** Hence the reverse hash input is its fields joined by '|', and it determines them. */
  lemma ReverseHashLayout(salt: string, status: string, email: string, firstname: string,
                          productinfo: string, amount: string, txnid: string, key: string)
    requires NoPipe(salt) && NoPipe(status) && NoPipe(email) && NoPipe(firstname)
    requires NoPipe(productinfo) && NoPipe(amount) && NoPipe(txnid) && NoPipe(key)
    ensures ReverseHashInput(salt, status, email, firstname, productinfo, amount, txnid, key)
         == Join(ReverseHashFields(salt, status, email, firstname, productinfo, amount, txnid, key), '|')
  {
    ReverseHashSplits(salt, status, email, firstname, productinfo, amount, txnid, key);
    JoinSplit(ReverseHashInput(salt, status, email, firstname, productinfo, amount, txnid, key), '|');
  }

  // ---------------------------------------------------------------------------
  // The handler

  /** The two environment secrets; a missing variable is `None`. */
  datatype Config = Config(merchantKey: Option<string>, merchantSalt: Option<string>)

  predicate Configured(cfg: Config) {
    Truthy(cfg.merchantKey) && Truthy(cfg.merchantSalt)
  }

  /** The body of an `initiate` call; `amount` is its decimal text and `amountCents` its `Math.round(amount * 100)`. */
  datatype InitiateBody = InitiateBody(amount: string, amountCents: int, productInfo: string, firstName: string,
                                       email: string, phone: Option<string>, userId: string, plan: string)

  /** The body of a `verify` call as rendered into the reverse hash template. */
  datatype VerifyBody = VerifyBody(txnid: string, status: string, mihpayid: Option<string>, hash: Option<string>,
                                   amount: string, productinfo: string, firstname: string, email: string,
                                   udf1: string)

  /** An OPTIONS preflight, or a POST whose `action` is `initiate`, `verify` or anything else. */
  datatype Request = Preflight | Initiate(init: InitiateBody) | Verify(verify: VerifyBody) | OtherAction(action: string)

  /**
   * What the runtime supplies: the generated transaction id, the id the database gives a new
   * order, the clock, the `origin` header, and which backend calls fail: the order insert, the
   * order update, and in `verify` the `.single()` read-back of the order, the profile update, the
   * activity insert and the notification insert (whose errors the handler ignores).
   */
  datatype Env = Env(txnid: string, newOrderId: string, now: string, origin: Option<string>,
                     insertFails: bool, updateFails: bool, readBackFails: bool,
                     profileUpdateFails: bool, activityInsertFails: bool, notificationInsertFails: bool)

  datatype Body =
    | NoBody
    | ErrorBody(error: string, success: Option<bool>)
    | Checkout(paymentUrl: string, params: map<string, string>, orderId: string)
    | Outcome(paid: bool, orderId: string)   // serialised as { success, orderId }

  datatype Response = Response(status: int, body: Body)

  const PaymentUrl: string := "https://secure.payu.in/_payment"

  /** The form parameters returned by `initiate`, with the request hash under "hash". */
  function CheckoutParams(key: string, salt: string, digest: Hasher, b: InitiateBody,
                          orderId: string, txnid: string, origin: Option<string>): map<string, string>
  {
    map["key" := key, "txnid" := txnid, "amount" := b.amount, "productinfo" := b.productInfo,
        "firstname" := b.firstName, "email" := b.email, "phone" := OrElse(b.phone, ""),
        "surl" := OrElse(origin, "") + "/billing?payment=success",
        "furl" := OrElse(origin, "") + "/billing?payment=failed",
        "udf1" := orderId, "udf2" := b.userId, "udf3" := b.plan,
        "hash" := Hex(digest(RequestHashInput(key, txnid, b.amount, b.productInfo, b.firstName, b.email, salt)))]
  }

  /** The row inserted by `initiate`: pending, monthly, no payment reference yet. */
  function PendingOrder(id: string, b: InitiateBody, plan: Plan, now: string): OrderRow {
    OrderRow(id, b.userId, plan, b.amountCents, None, Some("pending"), Some("monthly"), None, Some(now), None)
  }

  /** The update record written by a verified response. */
  function SettlementRecord(paid: bool, now: string): Record {
    map["status" := Str(if paid then "paid" else "failed"), "paid_at" := if paid then Str(now) else Null]
  }

  function UpgradeMessage(plan: Plan): string {
    "Your subscription has been upgraded to " + PlanName(plan) + " plan."
  }

  function UpgradeActivity(order: OrderRow, paymentId: Option<string>): ActivityRow {
    ActivityRow(order.userId, "subscription_upgraded", order.plan, paymentId)
  }

  function UpgradeNotification(order: OrderRow): NotificationRow {
    NotificationRow(order.userId, "payment", "Payment Successful", UpgradeMessage(order.plan))
  }

  /** The three writes after a successful payment whose order was read back; each one may fail on its own. */
  function Upgrade(db: DbState, order: OrderRow, paymentId: Option<string>, env: Env): DbState {
    db.(profiles := if !env.profileUpdateFails && order.userId in db.profiles
                    then db.profiles[order.userId := Some(order.plan)] else db.profiles,
        activityLog := if env.activityInsertFails then db.activityLog
                       else db.activityLog + [UpgradeActivity(order, paymentId)],
        notifications := if env.notificationInsertFails then db.notifications
                         else db.notifications + [UpgradeNotification(order)])
  }

  function ExpectedHash(key: string, salt: string, digest: Hasher, b: VerifyBody): string {
    Hex(digest(ReverseHashInput(salt, b.status, b.email, b.firstname, b.productinfo, b.amount, b.txnid, key)))
  }

  /**
   * `initiate`: a 200 adds exactly the new order; a 500 writes nothing. The other tables never change.
   */
  function InitiateSpec(db: DbState, key: string, salt: string, digest: Hasher, b: InitiateBody, env: Env)
    : (out: (DbState, Response))
    ensures out.1.status == 200 || out.1.status == 500
    ensures out.1.status == 500 ==> out.0 == db
    ensures out.1.status == 200 ==> env.newOrderId !in db.orders && out.0.orders.Keys == db.orders.Keys + {env.newOrderId}
    ensures out.0.profiles == db.profiles && out.0.activityLog == db.activityLog
    ensures out.0.notifications == db.notifications
  {
    var plan := ParsePlan(b.plan);
    if env.insertFails || plan.None? || env.newOrderId in db.orders then
      (db, Response(500, ErrorBody("Failed to create order", None)))
    else
      var row := PendingOrder(env.newOrderId, b, plan.value, env.now);
      var row' := if env.updateFails then row
                  else ApplyOrderUpdate(row, map["stripe_payment_intent_id" := Str(env.txnid)]);
      (db.(orders := db.orders[env.newOrderId := row']),
       Response(200, Checkout(PaymentUrl, CheckoutParams(key, salt, digest, b, env.newOrderId, env.txnid, env.origin), env.newOrderId)))
  }

  /**
   * `verify`: a 200 exactly when the hash matches; a 400 writes nothing. No order is created or
   * removed, and the logs only grow.
   */
  function VerifySpec(db: DbState, key: string, salt: string, digest: Hasher, b: VerifyBody, env: Env)
    : (out: (DbState, Response))
    ensures out.1.status == 200 <==> b.hash == Some(ExpectedHash(key, salt, digest, b))
    ensures out.1.status != 200 ==> out.1.status == 400 && out.0 == db
    ensures out.0.orders.Keys == db.orders.Keys
    ensures |out.0.activityLog| >= |db.activityLog| && out.0.activityLog[..|db.activityLog|] == db.activityLog
    ensures |out.0.notifications| >= |db.notifications| && out.0.notifications[..|db.notifications|] == db.notifications
  {
    if b.hash != Some(ExpectedHash(key, salt, digest, b)) then
      (db, Response(400, ErrorBody("Hash verification failed", Some(false))))
    else
      var paid := b.status == "success";
      var orders := if env.updateFails || b.udf1 !in db.orders then db.orders
                    else db.orders[b.udf1 := ApplyOrderUpdate(db.orders[b.udf1], SettlementRecord(paid, env.now))];
      var settled := db.(orders := orders);
      var upgraded := if paid && b.udf1 in orders && !env.readBackFails
                      then Upgrade(settled, orders[b.udf1], b.mihpayid, env) else settled;
      (upgraded, Response(200, Outcome(paid, b.udf1)))
  }

  /** The whole handler: the new tables and the response. */
  function Handle(db: DbState, cfg: Config, digest: Hasher, req: Request, env: Env): (out: (DbState, Response))
    ensures out.1.status in {200, 400, 500}
    ensures out.1.status != 200 ==> out.0 == db
    ensures req.Preflight? ==> out == (db, Response(200, NoBody))
    ensures out.0.orders.Keys >= db.orders.Keys
  {
    if req.Preflight? then (db, Response(200, NoBody))
    else if !Configured(cfg) then (db, Response(500, ErrorBody("PayU credentials not configured", None)))
    else
      var key, salt := cfg.merchantKey.value, cfg.merchantSalt.value;
      match req
      case Initiate(b) => InitiateSpec(db, key, salt, digest, b, env)
      case Verify(b) => VerifySpec(db, key, salt, digest, b, env)
      case OtherAction(_) => (db, Response(400, ErrorBody("Invalid action", None)))
  }

  /** The handler as the script it is: each backend call changes the tables in turn. */
  method Serve(db: Backend, cfg: Config, digest: Hasher, req: Request, env: Env) returns (resp: Response)
    modifies db
    ensures (db.Snapshot(), resp) == Handle(old(db.Snapshot()), cfg, digest, req, env)
  {
    if req.Preflight? {
      return Response(200, NoBody);
    }
    if !Configured(cfg) {
      return Response(500, ErrorBody("PayU credentials not configured", None));
    }
    var key, salt := cfg.merchantKey.value, cfg.merchantSalt.value;
    match req
    case Initiate(b) =>
      resp := ServeInitiate(db, key, salt, digest, b, env);
    case Verify(b) =>
      resp := ServeVerify(db, key, salt, digest, b, env);
    case OtherAction(_) =>
      resp := Response(400, ErrorBody("Invalid action", None));
  }

  /** `initiate`: insert the pending order, then record the txnid on it. */
  method ServeInitiate(db: Backend, key: string, salt: string, digest: Hasher, b: InitiateBody, env: Env)
    returns (resp: Response)
    modifies db
    ensures (db.Snapshot(), resp) == InitiateSpec(old(db.Snapshot()), key, salt, digest, b, env)
  {
    var plan := ParsePlan(b.plan);
    if env.insertFails || plan.None? || env.newOrderId in db.orders {
      return Response(500, ErrorBody("Failed to create order", None));
    }
    var row := PendingOrder(env.newOrderId, b, plan.value, env.now);
    db.orders := db.orders[env.newOrderId := row];
    ghost var inserted := db.orders;
    var params := CheckoutParams(key, salt, digest, b, env.newOrderId, env.txnid, env.origin);
    if !env.updateFails {
      db.orders := db.orders[env.newOrderId := ApplyOrderUpdate(row, map["stripe_payment_intent_id" := Str(env.txnid)])];
      assert db.orders == old(db.orders)[env.newOrderId := ApplyOrderUpdate(row, map["stripe_payment_intent_id" := Str(env.txnid)])];
    }
    resp := Response(200, Checkout(PaymentUrl, params, env.newOrderId));
  }

  /** `verify`: check the reverse hash, settle the order, and on success upgrade the plan. */
  method ServeVerify(db: Backend, key: string, salt: string, digest: Hasher, b: VerifyBody, env: Env)
    returns (resp: Response)
    modifies db
    ensures (db.Snapshot(), resp) == VerifySpec(old(db.Snapshot()), key, salt, digest, b, env)
  {
    if b.hash != Some(ExpectedHash(key, salt, digest, b)) {
      return Response(400, ErrorBody("Hash verification failed", Some(false)));
    }
    var paid := b.status == "success";
    if !env.updateFails && b.udf1 in db.orders {
      db.orders := db.orders[b.udf1 := ApplyOrderUpdate(db.orders[b.udf1], SettlementRecord(paid, env.now))];
    }
    if paid && b.udf1 in db.orders && !env.readBackFails {
      var order := db.orders[b.udf1];
      if !env.profileUpdateFails && order.userId in db.profiles {
        db.profiles := db.profiles[order.userId := Some(order.plan)];
      }
      if !env.activityInsertFails {
        db.activityLog := db.activityLog + [UpgradeActivity(order, b.mihpayid)];
      }
      if !env.notificationInsertFails {
        db.notifications := db.notifications + [UpgradeNotification(order)];
      }
    }
    resp := Response(200, Outcome(paid, b.udf1));
  }

  // ---------------------------------------------------------------------------
  // Properties of the handler

  /** Without both credentials every POST is a 500 and no table changes. */
  lemma CredentialsCheckedFirst(db: DbState, cfg: Config, digest: Hasher, req: Request, env: Env)
    requires !req.Preflight? && !Configured(cfg)
    ensures Handle(db, cfg, digest, req, env).0 == db
    ensures Handle(db, cfg, digest, req, env).1.status == 500
  {
  }

  /** An action other than `initiate` or `verify` is a 400 and no table changes. */
  lemma UnknownActionRejected(db: DbState, cfg: Config, digest: Hasher, action: string, env: Env)
    requires Configured(cfg)
    ensures Handle(db, cfg, digest, OtherAction(action), env) == (db, Response(400, ErrorBody("Invalid action", None)))
  {
  }

  /**
   * A successful `initiate` inserts one pending order under the new id, records the txnid on it
   * unless that update fails, and returns the request hash as 128 lower-case hex characters.
   */
  lemma CheckoutCreatesPendingOrder(db: DbState, cfg: Config, digest: Hasher, b: InitiateBody, env: Env)
    requires Configured(cfg)
    requires Handle(db, cfg, digest, Initiate(b), env).1.status == 200
    ensures var (db', resp) := Handle(db, cfg, digest, Initiate(b), env);
      && env.newOrderId !in db.orders
      && db'.orders.Keys == db.orders.Keys + {env.newOrderId}
      && (forall id :: id in db.orders ==> db'.orders[id] == db.orders[id])
      && db'.orders[env.newOrderId].status == Some("pending")
      && db'.orders[env.newOrderId].paymentIntentId == (if env.updateFails then None else Some(env.txnid))
      && db'.profiles == db.profiles && db'.notifications == db.notifications && db'.activityLog == db.activityLog
      && resp.body.Checkout? && resp.body.orderId == env.newOrderId
      && resp.body.params["hash"]
         == Hex(digest(RequestHashInput(cfg.merchantKey.value, env.txnid, b.amount, b.productInfo,
                                        b.firstName, b.email, cfg.merchantSalt.value)))
      && |resp.body.params["hash"]| == 128
  {
    var key, salt := cfg.merchantKey.value, cfg.merchantSalt.value;
    DigestHex(digest(RequestHashInput(key, env.txnid, b.amount, b.productInfo, b.firstName, b.email, salt)));
  }

  /** The hash sent to PayU does not depend on udf1..udf3 (order id, user id, plan), which travel unsigned. */
  lemma CheckoutHashIgnoresUdf(key: string, salt: string, digest: Hasher, b: InitiateBody,
                               orderId: string, txnid: string, origin: Option<string>,
                               otherOrder: string, otherUser: string, otherPlan: string)
    ensures CheckoutParams(key, salt, digest, b, orderId, txnid, origin)["hash"]
         == CheckoutParams(key, salt, digest, b.(userId := otherUser, plan := otherPlan), otherOrder, txnid, origin)["hash"]
    ensures CheckoutParams(key, salt, digest, b, orderId, txnid, origin)["udf1"] == orderId
  {
  }

  /** A response whose hash is not exactly the expected lower-case hex is a 400 and writes nothing. */
  lemma ForgedResponseRejected(db: DbState, cfg: Config, digest: Hasher, b: VerifyBody, env: Env)
    requires Configured(cfg)
    requires b.hash != Some(ExpectedHash(cfg.merchantKey.value, cfg.merchantSalt.value, digest, b))
    ensures Handle(db, cfg, digest, Verify(b), env)
         == (db, Response(400, ErrorBody("Hash verification failed", Some(false))))
  {
  }

  /**
   * The comparison is case-sensitive: the upper-case rendering of the expected digest is rejected
   * whenever that digest's hex has a letter in it.
   */
  lemma UpperCaseHashRejected(db: DbState, cfg: Config, digest: Hasher, b: VerifyBody, env: Env, i: nat)
    requires Configured(cfg)
    requires var e := ExpectedHash(cfg.merchantKey.value, cfg.merchantSalt.value, digest, b);
      i < |e| && 'a' <= e[i] <= 'f' && b.hash == Some(Upper(e))
    ensures Handle(db, cfg, digest, Verify(b), env).1.status == 400
  {
    var e := ExpectedHash(cfg.merchantKey.value, cfg.merchantSalt.value, digest, b);
    assert Upper(e)[i] != e[i];
  }

  /**
   * A verified response settles the order named by udf1: "success" makes it paid with `paid_at`
   * set, any other status makes it failed with `paid_at` cleared; other orders are untouched.
   */
  lemma VerifiedResponseSettlesOrder(db: DbState, cfg: Config, digest: Hasher, b: VerifyBody, env: Env)
    requires Configured(cfg)
    requires b.hash == Some(ExpectedHash(cfg.merchantKey.value, cfg.merchantSalt.value, digest, b))
    requires b.udf1 in db.orders && !env.updateFails
    ensures var db' := Handle(db, cfg, digest, Verify(b), env).0;
      && db'.orders.Keys == db.orders.Keys
      && db'.orders[b.udf1].status == Some(if b.status == "success" then "paid" else "failed")
      && db'.orders[b.udf1].paidAt == (if b.status == "success" then Some(env.now) else None)
      && (forall id :: id in db.orders && id != b.udf1 ==> db'.orders[id] == db.orders[id])
  {
  }

  /**
   * After a verified response the order is read back when the status is "success", the order
   * exists and the read-back succeeds; then each of the three writes happens unless that call
   * fails: the owner's plan is set, one "subscription_upgraded" activity row carrying the plan and
   * the payment id is appended, and one "payment" notification naming the plan is appended.
   * Otherwise the profiles and both logs are unchanged; old rows are always kept as a prefix.
   */
  lemma UpgradeOnlyOnSuccess(db: DbState, cfg: Config, digest: Hasher, b: VerifyBody, env: Env)
    requires Configured(cfg)
    requires b.hash == Some(ExpectedHash(cfg.merchantKey.value, cfg.merchantSalt.value, digest, b))
    ensures var db' := Handle(db, cfg, digest, Verify(b), env).0;
      var upgraded := b.status == "success" && b.udf1 in db.orders && !env.readBackFails;
      var logged := upgraded && !env.activityInsertFails;
      var notified := upgraded && !env.notificationInsertFails;
      && |db'.notifications| == |db.notifications| + (if notified then 1 else 0)
      && |db'.activityLog| == |db.activityLog| + (if logged then 1 else 0)
      && db'.notifications[..|db.notifications|] == db.notifications
      && db'.activityLog[..|db.activityLog|] == db.activityLog
      && (notified ==>
            db'.notifications[|db.notifications|]
            == NotificationRow(db.orders[b.udf1].userId, "payment", "Payment Successful",
                               "Your subscription has been upgraded to " + PlanName(db.orders[b.udf1].plan) + " plan."))
      && (logged ==>
            db'.activityLog[|db.activityLog|]
            == ActivityRow(db.orders[b.udf1].userId, "subscription_upgraded", db.orders[b.udf1].plan, b.mihpayid))
      && (!(upgraded && !env.profileUpdateFails) ==> db'.profiles == db.profiles)
      && (upgraded && !env.profileUpdateFails && db.orders[b.udf1].userId in db.profiles
          ==> db'.profiles == db.profiles[db.orders[b.udf1].userId := Some(db.orders[b.udf1].plan)])
  {
  }

  /**
   * The handler ignores the errors of the upgrade writes, so a verified payment can leave the buyer
   * notified of an upgrade that was neither applied to the profile nor logged.
   */
  lemma NotifiedWithoutUpgrade(db: DbState, cfg: Config, digest: Hasher, b: VerifyBody, env: Env)
    requires Configured(cfg)
    requires b.hash == Some(ExpectedHash(cfg.merchantKey.value, cfg.merchantSalt.value, digest, b))
    requires b.status == "success" && b.udf1 in db.orders && !env.readBackFails
    requires env.profileUpdateFails && env.activityInsertFails && !env.notificationInsertFails
    ensures var (db', resp) := Handle(db, cfg, digest, Verify(b), env);
      && |db'.notifications| == |db.notifications| + 1
      && db'.profiles == db.profiles && db'.activityLog == db.activityLog
      && resp == Response(200, Outcome(true, b.udf1))
  {
  }

  /** The response reports `status == "success"` whatever happened to the order update. */
  lemma VerifiedResponseFlag(db: DbState, cfg: Config, digest: Hasher, b: VerifyBody, env: Env)
    requires Configured(cfg)
    requires b.hash == Some(ExpectedHash(cfg.merchantKey.value, cfg.merchantSalt.value, digest, b))
    ensures Handle(db, cfg, digest, Verify(b), env).1 == Response(200, Outcome(b.status == "success", b.udf1))
  {
  }

  /** There is no replay guard: delivering the same successful response twice notifies twice. */
  lemma ReplayNotifiesTwice(db: DbState, cfg: Config, digest: Hasher, b: VerifyBody, env: Env)
    requires Configured(cfg)
    requires b.hash == Some(ExpectedHash(cfg.merchantKey.value, cfg.merchantSalt.value, digest, b))
    requires b.status == "success" && b.udf1 in db.orders
    ensures var once := Handle(db, cfg, digest, Verify(b), env).0;
      var twice := Handle(once, cfg, digest, Verify(b), env).0;
      && |twice.notifications| == |db.notifications| + (if env.readBackFails || env.notificationInsertFails then 0 else 2)
      && |twice.activityLog| == |db.activityLog| + (if env.readBackFails || env.activityInsertFails then 0 else 2)
  {
    UpgradeOnlyOnSuccess(db, cfg, digest, b, env);
    var once := Handle(db, cfg, digest, Verify(b), env).0;
    assert b.udf1 in once.orders;
    UpgradeOnlyOnSuccess(once, cfg, digest, b, env);
  }

  /**
   * udf1 is not part of the reverse hash, yet it chooses the order to settle: a response that
   * verifies still verifies with udf1 pointing at any other order.
   */
  lemma OrderIdNotAuthenticated(db: DbState, cfg: Config, digest: Hasher, b: VerifyBody, env: Env, other: string)
    requires Configured(cfg)
    ensures Handle(db, cfg, digest, Verify(b), env).1.status
         == Handle(db, cfg, digest, Verify(b.(udf1 := other)), env).1.status
  {
  }
}
