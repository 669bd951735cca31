/** The cache vocabulary of the users feature (src/features/users/cache.ts): the collection
    tag, per-user tags, the freshness profiles each kind of read uses, and revalidation,
    which expires a tag in the framework's tag store at once. The store is modelled as a
    map from tag to its expire time in seconds; time itself is not modelled. */
module UsersCache {

  /** The tag of the users collection. */
  const UsersTag := "users"

  /** The prefix of per-user tags. */
  const UserTagPrefix := "user"

  /** A cache-life profile, in seconds. */
  datatype Profile = Profile(stale: int, revalidate: int, expire: int)

  const Minutes := Profile(300, 60, 3600)
  const Hours := Profile(300, 3600, 86400)
  const Days := Profile(300, 86400, 604800)

  /** `buildUserTag(id)`: the prefix, a colon and the id. */
  function BuildUserTag(id: string): (tag: string)
    ensures |tag| == |UserTagPrefix| + 1 + |id|
    ensures tag[..|UserTagPrefix| + 1] == UserTagPrefix + ":" && tag[|UserTagPrefix| + 1..] == id
    ensures tag != UsersTag
  {
    var tag := UserTagPrefix + ":" + id;
    assert tag[4] == ':' && UsersTag[4] == 's';
    tag
  }

  /** Different ids get different tags. */
  lemma BuildUserTagInjective(a: string, b: string)
    ensures BuildUserTag(a) == BuildUserTag(b) ==> a == b
  {
  }

  /** What a kind of read is tagged with and how long it stays fresh. */
  datatype CacheConfig = CacheConfig(tag: string, life: Profile)

  /** `cache.users`: the collection tag with the hours profile. */
  const UsersCacheConfig := CacheConfig(UsersTag, Hours)

  /** `cache.user.tag(id)` with `cache.user.life`: the user's tag with the minutes profile. */
  function UserCacheConfig(id: string): (c: CacheConfig)
    ensures c.tag == BuildUserTag(id) && c.life == Minutes
  {
    CacheConfig(BuildUserTag(id), Minutes)
  }

  /** A profile is consistent when an entry is revalidated, and stops being served stale,
      before it expires. */
  predicate Consistent(p: Profile) {
    0 < p.revalidate < p.expire && 0 < p.stale < p.expire
  }

  /** Every profile is consistent, and the collection is kept longer than one user: both its
      revalidate and its expire times are longer. */
  lemma ProfilesConsistent()
    ensures Consistent(Minutes) && Consistent(Hours) && Consistent(Days)
    ensures forall id :: UsersCacheConfig.life.revalidate > UserCacheConfig(id).life.revalidate
    ensures forall id :: UsersCacheConfig.life.expire > UserCacheConfig(id).life.expire
  {
  }

  /** The tag store after `revalidateTag(tag, { expire: 0 })`: that tag expires now and
      every other tag keeps its entry. */
  function Invalidate(store: map<string, int>, tag: string): (r: map<string, int>)
    ensures tag in r && r[tag] == 0
    ensures forall t :: t != tag ==> (t in r <==> t in store)
    ensures forall t :: t != tag && t in store ==> r[t] == store[t]
  {
    store[tag := 0]
  }

  /** Invalidating a tag twice is invalidating it once. */
  lemma InvalidateIdempotent(store: map<string, int>, tag: string)
    ensures Invalidate(Invalidate(store, tag), tag) == Invalidate(store, tag)
  {
  }

  /** Invalidating two tags gives the same store in either order. */
  lemma InvalidateCommutes(store: map<string, int>, a: string, b: string)
    ensures Invalidate(Invalidate(store, a), b) == Invalidate(Invalidate(store, b), a)
  {
  }

  /** Revalidating one user touches neither the collection nor any other user. */
  lemma UserRevalidationIsolated(store: map<string, int>, id: string, other: string)
    requires other != id
    ensures var r := Invalidate(store, BuildUserTag(id));
      && (UsersTag in r <==> UsersTag in store) && (UsersTag in store ==> r[UsersTag] == store[UsersTag])
      && (BuildUserTag(other) in r <==> BuildUserTag(other) in store)
      && (BuildUserTag(other) in store ==> r[BuildUserTag(other)] == store[BuildUserTag(other)])
  {
    BuildUserTagInjective(id, other);
  }

  /** The framework's tag store, which `revalidate` updates in place. */
  class TagStore {
    var expire: map<string, int>

    constructor(initial: map<string, int>)
      ensures expire == initial
    {
      expire := initial;
    }

    /** `revalidate.users()`: expire the collection tag only. */
    method RevalidateUsers()
      modifies this
      ensures expire == Invalidate(old(expire), UsersTag)
    {
      expire := expire[UsersTag := 0];
    }

    /** `revalidate.user(id)`: expire that user's tag only. */
    method RevalidateUser(id: string)
      modifies this
      ensures expire == Invalidate(old(expire), BuildUserTag(id))
    {
      expire := expire[BuildUserTag(id) := 0];
    }
  }
}
