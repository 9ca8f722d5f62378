/** lib/entitlements.ts: the tier table, the access-key cache in front of
    the `entitlements` table, and the reuse-or-insert of an entitlement
    after a purchase. The table and the cache are fields of one
    `EntitlementService` object; the clock is passed in as `now`. */
module Entitlements {
  import opened Common

  /** The limits a tier grants. */
  datatype Limits = Limits(battlesPerDay: nat, maxPromptLength: nat)

  /** `getTierLimits`: a switch on the tier name; `null` and every other
      value fall through to the free limits. */
  function TierLimits(tier: Option<string>): (l: Limits)
    ensures l.maxPromptLength >= 2000 && l.battlesPerDay >= 3
  {
    if tier == Some("builder") then Limits(300, 5000)
    else if tier == Some("pro") then Limits(50, 3000)
    else if tier == Some("sponsor") then Limits(10, 2000)
    else Limits(3, 2000)
  }

  /** The tiers are ordered: builder grants at least what pro grants, pro at
      least what sponsor grants, and sponsor at least the free limits; any
      unknown tier gets exactly the free limits. */
  lemma TierLimitsOrdered(other: string)
    requires other != "builder" && other != "pro" && other != "sponsor"
    ensures TierLimits(Some(other)) == TierLimits(None) == Limits(3, 2000)
    ensures var b, p, s, f := TierLimits(Some("builder")), TierLimits(Some("pro")),
                              TierLimits(Some("sponsor")), TierLimits(None);
      b.battlesPerDay > p.battlesPerDay > s.battlesPerDay > f.battlesPerDay &&
      b.maxPromptLength > p.maxPromptLength > s.maxPromptLength == f.maxPromptLength
  {
  }

  /** An `entitlements` row (`updated_at`, written by the update, is not
      part of the model). */
  datatype Entitlement = Entitlement(
    id: string,
    email: string,
    tier: string,
    accessKey: string,
    status: string,
    stripeCustomerId: Option<string>,
    stripeSubscriptionId: Option<string>,
    createdAt: string)

  /** An `entitlementCache` value: a positive or a negative (null) result. */
  datatype CacheEntry = CacheEntry(entitlement: Option<Entitlement>, expires: int)

  /** `CACHE_TTL`: five minutes, in milliseconds. */
  const CacheTtl: int := 5 * 60 * 1000

  /** The rows satisfying `p`, in table order. */
  function Filter(rows: seq<Entitlement>, p: Entitlement -> bool): (r: seq<Entitlement>)
    ensures |r| <= |rows|
    ensures forall x :: x in r ==> x in rows && p(x)
  {
    if rows == [] then []
    else Filter(rows[..|rows| - 1], p) + (if p(rows[|rows| - 1]) then [rows[|rows| - 1]] else [])
  }

  /** Every row satisfying `p` is kept by `Filter`. */
  lemma {:induction false} FilterComplete(rows: seq<Entitlement>, p: Entitlement -> bool, x: Entitlement)
    requires x in rows && p(x)
    ensures x in Filter(rows, p)
  {
    var last := rows[|rows| - 1];
    if x != last {
      assert rows == rows[..|rows| - 1] + [last];
      FilterComplete(rows[..|rows| - 1], p, x);
    }
  }

  /** `.single()`: the row when exactly one matches, else an error (null). */
  function Single(rows: seq<Entitlement>): (r: Option<Entitlement>)
    ensures r.Some? <==> |rows| == 1
    ensures r.Some? ==> r.value in rows
  {
    if |rows| == 1 then Some(rows[0]) else None
  }

  /** The filter of `validateAccessKey`'s query. */
  function ActiveKey(accessKey: string): Entitlement -> bool
  {
    (e: Entitlement) => e.accessKey == accessKey && e.status == "active"
  }

  /** The query of `validateAccessKey`: the one active row with this key. */
  function KeyLookup(table: seq<Entitlement>, accessKey: string): Option<Entitlement>
  {
    Single(Filter(table, ActiveKey(accessKey)))
  }

  /** `validateAccessKey(key)` at time `now`: the answer and the cache
      afterwards. An entry that has not expired (`expires > now`) answers,
      positive or negative, with no lookup; otherwise the lookup's result,
      null included, is cached for five minutes. */
  function Validate(cache: map<string, CacheEntry>, table: seq<Entitlement>, accessKey: string, now: int)
    : (Option<Entitlement>, map<string, CacheEntry>)
  {
    if accessKey in cache && cache[accessKey].expires > now then (cache[accessKey].entitlement, cache)
    else
      var found := KeyLookup(table, accessKey);
      (found, cache[accessKey := CacheEntry(found, now + CacheTtl)])
  }

  /** After a validation the key's cache entry holds exactly the answer. */
  lemma ValidateCachesAnswer(cache: map<string, CacheEntry>, table: seq<Entitlement>, accessKey: string, now: int)
    ensures var (r, after) := Validate(cache, table, accessKey, now);
      accessKey in after && after[accessKey].entitlement == r && after[accessKey].expires > now
  {
  }

  /** Without a live cache entry, a key is valid exactly when one active row
      of the table holds it, and the answer is that row: no other active row
      holds the key. */
  lemma ValidateFindsActiveRow(cache: map<string, CacheEntry>, table: seq<Entitlement>, accessKey: string, now: int)
    requires accessKey !in cache || cache[accessKey].expires <= now
    ensures var r := Validate(cache, table, accessKey, now).0;
      r.Some? ==> r.value in table && r.value.accessKey == accessKey && r.value.status == "active"
    ensures var r := Validate(cache, table, accessKey, now).0;
      r.Some? <==> |Filter(table, ActiveKey(accessKey))| == 1
    ensures var r := Validate(cache, table, accessKey, now).0;
      r.Some? ==> forall e :: e in table && e.accessKey == accessKey && e.status == "active" ==> e == r.value
  {
    var r := Validate(cache, table, accessKey, now).0;
    if r.Some? {
      forall e | e in table && e.accessKey == accessKey && e.status == "active"
        ensures e == r.value
      {
        FilterComplete(table, ActiveKey(accessKey), e);
      }
    }
  }

  /** The cache outlives changes to the table: until the entry expires the
      same answer comes back whatever the table now holds, so a revoked key
      stays valid, and a newly issued one invalid, for up to five minutes. */
  lemma AnswerStableUntilExpiry(cache: map<string, CacheEntry>, table: seq<Entitlement>, table': seq<Entitlement>,
                                accessKey: string, now: int, later: int)
    requires later < Validate(cache, table, accessKey, now).1[accessKey].expires
    ensures var (r, after) := Validate(cache, table, accessKey, now);
      Validate(after, table', accessKey, later) == (r, after)
  {
  }

  /** A lookup's result is cached for exactly five minutes from `now`. */
  lemma MissCachedFiveMinutes(cache: map<string, CacheEntry>, table: seq<Entitlement>, accessKey: string, now: int)
    requires accessKey !in cache || cache[accessKey].expires <= now
    ensures var (r, after) := Validate(cache, table, accessKey, now);
      r == KeyLookup(table, accessKey) && after[accessKey] == CacheEntry(r, now + 300000) &&
      forall k :: k in cache && k != accessKey ==> k in after && after[k] == cache[k]
  {
  }

  /** The filter of `createOrReuseEntitlement`'s query. */
  function ActivePurchase(email: string, tier: string): Entitlement -> bool
  {
    (e: Entitlement) => e.email == email && e.tier == tier && e.status == "active"
  }

  /** The query of `createOrReuseEntitlement`: the one active row for this
      email, lower-cased, and tier. */
  function PurchaseLookup(table: seq<Entitlement>, email: string, tier: string): Option<Entitlement>
  {
    Single(Filter(table, ActivePurchase(ToLower(email), tier)))
  }

  /** `x || fallback` on optional Stripe ids. */
  function OrOld(x: Option<string>, fallback: Option<string>): (r: Option<string>)
    ensures Truthy(x) ==> r == x
    ensures !Truthy(x) ==> r == fallback
  {
    if Truthy(x) then x else fallback
  }

  /** The `update(...).eq('id', id)` of the Stripe ids, on every row with
      that id. */
  function WithStripeIds(table: seq<Entitlement>, id: string, customerId: Option<string>,
                         subscriptionId: Option<string>): (r: seq<Entitlement>)
    ensures |r| == |table|
    ensures forall i :: 0 <= i < |table| && table[i].id != id ==> r[i] == table[i]
    ensures forall i :: 0 <= i < |table| ==> r[i].id == table[i].id && r[i].accessKey == table[i].accessKey &&
                                              r[i].email == table[i].email && r[i].status == table[i].status
  {
    seq(|table|, i requires 0 <= i < |table| =>
      if table[i].id == id
      then table[i].(stripeCustomerId := OrOld(customerId, table[i].stripeCustomerId),
                     stripeSubscriptionId := OrOld(subscriptionId, table[i].stripeSubscriptionId))
      else table[i])
  }

  /** The state behind `entitlementCache` and the `entitlements` table. */
  class EntitlementService {
    var table: seq<Entitlement>
    var cache: map<string, CacheEntry>

    constructor (table0: seq<Entitlement>)
      ensures table == table0 && cache == map[]
    {
      table := table0;
      cache := map[];
    }

    /** `validateAccessKey(accessKey)`; both readings of `Date.now()` are
        the one instant `now`. */
    method ValidateAccessKey(accessKey: string, now: int) returns (r: Option<Entitlement>)
      modifies this
      ensures (r, cache) == Validate(old(cache), old(table), accessKey, now)
      ensures table == old(table)
    {
      if accessKey in cache && cache[accessKey].expires > now {
        return cache[accessKey].entitlement;
      }
      var data := KeyLookup(table, accessKey);
      if data.None? {
        cache := cache[accessKey := CacheEntry(None, now + CacheTtl)];
        return None;
      }
      cache := cache[accessKey := CacheEntry(data, now + CacheTtl)];
      r := data;
    }

    /** `clearEntitlementCache(accessKey?)`: a truthy key is removed alone;
        a missing or empty one empties the whole cache. */
    method ClearEntitlementCache(accessKey: Option<string>)
      modifies this
      ensures Truthy(accessKey) ==> cache == old(cache) - {accessKey.value}
      ensures !Truthy(accessKey) ==> cache == map[]
      ensures table == old(table)
    {
      if Truthy(accessKey) {
        cache := cache - {accessKey.value};
      } else {
        cache := map[];
      }
    }

    /** `createOrReuseEntitlement(email, tier, stripeCustomerId?,
        stripeSubscriptionId?)`. The new row's id, access key and creation
        time, which the database and `generateAccessKey` supply, are
        parameters, as is the error of a failing insert; a new row's status
        is the table's default, 'active'. */
    method CreateOrReuseEntitlement(email: string, tier: string, customerId: Option<string>,
                                    subscriptionId: Option<string>, newId: string, newKey: string,
                                    createdAt: string, insertError: Option<string>)
      returns (r: Result<Entitlement>)
      modifies this
      ensures cache == old(cache)
      ensures PurchaseLookup(old(table), email, tier).Some? ==>
                r == Ok(PurchaseLookup(old(table), email, tier).value) &&
                table == (if Truthy(customerId) || Truthy(subscriptionId)
                          then WithStripeIds(old(table), r.value.id, customerId, subscriptionId)
                          else old(table))
      ensures PurchaseLookup(old(table), email, tier).None? && insertError.Some? ==>
                r == Err("Failed to create entitlement: " + insertError.value) && table == old(table)
      ensures PurchaseLookup(old(table), email, tier).None? && insertError.None? ==>
                r == Ok(Entitlement(newId, ToLower(email), tier, newKey, "active", customerId, subscriptionId, createdAt)) &&
                table == old(table) + [r.value]
    {
      var existing := PurchaseLookup(table, email, tier);
      if existing.Some? {
        if Truthy(customerId) || Truthy(subscriptionId) {
          table := WithStripeIds(table, existing.value.id, customerId, subscriptionId);
        }
        return Ok(existing.value);
      }
      if insertError.Some? {
        return Err("Failed to create entitlement: " + insertError.value);
      }
      var row := Entitlement(newId, ToLower(email), tier, newKey, "active", customerId, subscriptionId, createdAt);
      table := table + [row];
      r := Ok(row);
    }
  }

  /** Updating the Stripe ids keeps an id that is not supplied and replaces
      one that is; the rows' other fields do not change. */
  lemma StripeIdsKeptUnlessSupplied(table: seq<Entitlement>, id: string, customerId: Option<string>,
                                    subscriptionId: Option<string>, i: nat)
    requires i < |table| && table[i].id == id
    ensures var row := WithStripeIds(table, id, customerId, subscriptionId)[i];
      (row.stripeCustomerId == if Truthy(customerId) then customerId else table[i].stripeCustomerId) &&
      (row.stripeSubscriptionId == if Truthy(subscriptionId) then subscriptionId else table[i].stripeSubscriptionId) &&
      row.(stripeCustomerId := table[i].stripeCustomerId, stripeSubscriptionId := table[i].stripeSubscriptionId) == table[i]
  {
  }

  /** No row satisfying `p` means an empty result. */
  lemma FilterNone(rows: seq<Entitlement>, p: Entitlement -> bool)
    requires forall x :: x in rows ==> !p(x)
    ensures Filter(rows, p) == []
  {
  }

  lemma {:induction false} FilterSnoc(rows: seq<Entitlement>, p: Entitlement -> bool, x: Entitlement)
    ensures Filter(rows + [x], p) == Filter(rows, p) + (if p(x) then [x] else [])
  {
    assert (rows + [x])[..|rows|] == rows;
  }

  /** A purchase with no active row for its lower-cased email and tier
      inserts one that the next purchase of that tier, under any
      capitalisation of the email, finds and reuses instead of inserting
      again. */
  lemma InsertedRowIsReused(table: seq<Entitlement>, email: string, email': string, tier: string,
                            row: Entitlement)
    requires forall e :: e in table ==> !(e.email == ToLower(email) && e.tier == tier && e.status == "active")
    requires row.email == ToLower(email) && row.tier == tier && row.status == "active"
    requires ToLower(email') == ToLower(email)
    ensures PurchaseLookup(table, email, tier).None?
    ensures PurchaseLookup(table + [row], email', tier) == Some(row)
  {
    var p := ActivePurchase(ToLower(email), tier);
    forall e | e in table ensures !p(e) {
    }
    FilterNone(table, p);
    FilterSnoc(table, p, row);
  }
}
