/** Redis keys and the semantic cache's filter hash. SHA-256 is any function from
    texts to 64-character digests that does not collide on the texts in use. */
module CacheKeys {
  import opened ChatRequest

  type Sha = string -> string

  ghost predicate IsDigest(sha: Sha) { forall x :: |sha(x)| == 64 }

  /** No two requests in use collide, on the full digest or on the filter's 16 characters. */
  ghost predicate CollisionFree(sha: Sha, requests: set<ChatRequest>) {
    && IsDigest(sha)
    && (forall a, b :: a in requests && b in requests && sha(Fingerprint(a)) == sha(Fingerprint(b)) ==>
          Fingerprint(a) == Fingerprint(b))
    && (forall a, b :: a in requests && b in requests && ParamsHash(sha, a) == ParamsHash(sha, b) ==>
          a.ParamsFingerprint() == b.ParamsFingerprint())
  }

  function ExactCacheKey(sha: Sha, r: ChatRequest): string {
    "cache:exact:" + sha(Fingerprint(r))
  }

  /** First 16 characters of the digest of the parameters alone. */
  function ParamsHash(sha: Sha, r: ChatRequest): string {
    var digest := sha(r.ParamsFingerprint());
    if |digest| < 16 then digest else digest[..16]
  }

  function EntryKey(sha: Sha, r: ChatRequest, tenant: string): string {
    ExactCacheKey(sha, r) + ":tenant:" + tenant
  }

  function LockKey(sha: Sha, r: ChatRequest, tenant: string): string {
    "lock:" + ExactCacheKey(sha, r) + ":tenant:" + tenant
  }

  /** The filter compares 64 of the digest's 256 bits. */
  lemma FilterHashIsShort(sha: Sha, r: ChatRequest)
    requires IsDigest(sha)
    ensures ParamsHash(sha, r) == sha(r.ParamsFingerprint())[..16]
  {
  }

  lemma SameLengthPrefixes(a: string, b: string, s: string, t: string)
    requires |a| == |b|
    ensures a + s == b + t <==> a == b && s == t
  {
    if a + s == b + t {
      assert a == (a + s)[..|a|] == b;
      assert s == (a + s)[|a|..] == t;
    }
  }

  /** A cache entry belongs to one tenant and one digest, even though tenant names may
      themselves contain the key's separators. */
  lemma EntryKeysSplit(sha: Sha, a: ChatRequest, t: string, b: ChatRequest, u: string)
    requires IsDigest(sha)
    ensures EntryKey(sha, a, t) == EntryKey(sha, b, u) <==> t == u && sha(Fingerprint(a)) == sha(Fingerprint(b))
    ensures LockKey(sha, a, t) == LockKey(sha, b, u) <==> t == u && sha(Fingerprint(a)) == sha(Fingerprint(b))
  {
    hide Fingerprint;
    var ka, kb := ExactCacheKey(sha, a), ExactCacheKey(sha, b);
    SameLengthPrefixes("cache:exact:", "cache:exact:", sha(Fingerprint(a)), sha(Fingerprint(b)));
    SameLengthPrefixes(ka, kb, ":tenant:" + t, ":tenant:" + u);
    SameLengthPrefixes(":tenant:", ":tenant:", t, u);
    assert ka + (":tenant:" + t) == EntryKey(sha, a, t) && kb + (":tenant:" + u) == EntryKey(sha, b, u);
    SameLengthPrefixes("lock:", "lock:", EntryKey(sha, a, t), EntryKey(sha, b, u));
    assert "lock:" + EntryKey(sha, a, t) == LockKey(sha, a, t) && "lock:" + EntryKey(sha, b, u) == LockKey(sha, b, u);
  }

  /** Without collisions: to one tenant and one fingerprint. */
  lemma EntryKeysAgree(sha: Sha, a: ChatRequest, t: string, b: ChatRequest, u: string)
    requires CollisionFree(sha, {a, b})
    ensures EntryKey(sha, a, t) == EntryKey(sha, b, u) <==> t == u && Fingerprint(a) == Fingerprint(b)
    ensures LockKey(sha, a, t) == LockKey(sha, b, u) <==> t == u && Fingerprint(a) == Fingerprint(b)
  {
    hide Fingerprint, EntryKey, LockKey;
    EntryKeysSplit(sha, a, t, b, u);
    assert a in {a, b} && b in {a, b};
  }

  /** Cache entries, locks, buckets, prices and cached API keys share one Redis database
      in disjoint key spaces. */
  lemma KeySpacesAreDisjoint(sha: Sha, a: ChatRequest, t: string, b: ChatRequest, u: string, limiterTenant: string,
      model: string, keyHash: string)
    ensures var entry, lock := EntryKey(sha, a, t), LockKey(sha, b, u);
            var bucket, price, auth := "ratelimit:tenant:" + limiterTenant, "pricing:" + model, "auth:v1:" + keyHash;
            && entry != lock && entry != bucket && entry != price && entry != auth
            && lock != bucket && lock != price && lock != auth
            && bucket != price && bucket != auth && price != auth
  {
    var entry, lock := EntryKey(sha, a, t), LockKey(sha, b, u);
    var bucket, price, auth := "ratelimit:tenant:" + limiterTenant, "pricing:" + model, "auth:v1:" + keyHash;
    assert entry[0] == 'c' && lock[0] == 'l' && bucket[0] == 'r' && price[0] == 'p' && auth[0] == 'a';
  }
}
