/**
 * The revoked-token collection: one record per token string (a unique index),
 * `createdAt` defaulting to the insertion time, and a TTL index that removes a
 * record 3600 seconds after `createdAt`.
 */
module RevokedTokenSchema {
  import opened Wrappers
  import opened JsValues

  const TtlSeconds: int := 3600

  /** The lifetime of a record in milliseconds, the unit of `createdAt`. */
  const TtlMillis: int := TtlSeconds * 1000

  /** The stored records: token string to `createdAt` (milliseconds since the epoch). */
  type Store = map<string, int>

  /** Why an insert is rejected: an empty token fails `required`, a repeated one the unique index. */
  datatype InsertError = TokenRequired | DuplicateKey

  /**
   * A record still within its lifetime at time `now`: the TTL monitor removes
   * records whose `createdAt` lies more than `TtlSeconds` before `now`.
   */
  predicate Visible(store: Store, token: string, now: int) {
    token in store && now <= store[token] + TtlMillis
  }

  /**
   * `RevokedToken.create({ token, expiresAt })` at time `now`. `expiresAt` is
   * not a path of the schema, so it is dropped and never stored.
   */
  function Create(store: Store, token: string, expiresAt: JsValue, now: int): (r: Result<Store, InsertError>)
    ensures token == "" ==> r == Failure(TokenRequired)
    ensures token != "" && token in store ==> r == Failure(DuplicateKey)
    ensures r.Success? <==> token != "" && token !in store
    ensures r.Success? ==> r.value == store[token := now]
  {
    if token == "" then Failure(TokenRequired)
    else if token in store then Failure(DuplicateKey)
    else Success(store[token := now])
  }

  /** One pass of the TTL monitor at time `now`: every record past its lifetime is removed. */
  function Purge(store: Store, now: int): (r: Store)
    ensures forall t :: t in r <==> Visible(store, t, now)
    ensures forall t :: t in r ==> t in store && r[t] == store[t]
  {
    map t | t in store && now <= store[t] + TtlMillis :: store[t]
  }

  /** A second insert of the same token is rejected and the first record is left as it was. */
  lemma DuplicateRejected(store: Store, token: string, e1: JsValue, e2: JsValue, now1: int, now2: int)
    requires Create(store, token, e1, now1).Success?
    ensures Create(Create(store, token, e1, now1).value, token, e2, now2) == Failure(DuplicateKey)
    ensures Create(store, token, e1, now1).value[token] == now1
  {
  }

  /** The lifetime of a record does not depend on the `expiresAt` passed to `create`. */
  lemma ExpiresAtIgnored(store: Store, token: string, e1: JsValue, e2: JsValue, now: int)
    ensures Create(store, token, e1, now) == Create(store, token, e2, now)
  {
  }

  /**
   * A record inserted at `now` is visible at exactly the times `t` in
   * `[now, now + 3600 s]`, and no pass of the TTL monitor at or before `t`
   * removes it.
   */
  lemma {:induction false} RevocationWindow(store: Store, token: string, e: JsValue, now: int, t: int, purgeAt: int)
    requires Create(store, token, e, now).Success?
    requires now <= t && purgeAt <= t
    ensures var s := Create(store, token, e, now).value;
      Visible(s, token, t) <==> t <= now + TtlMillis
    ensures var s := Create(store, token, e, now).value;
      t <= now + TtlMillis ==> Visible(Purge(s, purgeAt), token, t)
  {
    var s := Create(store, token, e, now).value;
    assert s[token] == now;
    if t <= now + TtlMillis {
      assert Visible(s, token, purgeAt);
      assert Purge(s, purgeAt)[token] == now;
    }
  }
}
