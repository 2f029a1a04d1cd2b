/** loadtest/store/memstore/store.go: the four bounded caches of a user's local state, each with the
    argument checks of its setter. A struct is modelled as a record of its identity fields and the
    rest; a nil pointer as None. */
module MemStores {
  import opened Wrappers
  import opened CacheHistory
  import opened CircularQueue
  import opened BoundedCaches

  datatype PostData = PostData(userId: string, channelId: string, message: string, createAt: int, deleteAt: int)
  datatype UserData = UserData(username: string, email: string)
  datatype StatusData = StatusData(status: string, lastActivityAt: int)
  datatype MemberData = MemberData(roles: string)

  type Post = Record<string, PostData>
  type User = Record<string, UserData>
  type Status = Record<string, StatusData>
  type Member = Record<(string, string), MemberData> // keyed by channel id and user id

  datatype Config = Config(maxPosts: int, maxUsers: int, maxMembers: int, maxStatuses: int)

  datatype StoreError = NilArgument | EmptyId | KeyMismatch | NotFound | InvalidConfig

  const NO_POST := Record("", PostData("", "", "", 0, 0))
  const NO_USER := Record("", UserData("", ""))
  const NO_STATUS := Record("", StatusData("", 0))
  const NO_MEMBER := Record(("", ""), MemberData(""))

  /** Refused with an error: a nil pointer, and a post without id. */
  predicate Refused(post: Option<Post>) {
    post.None? || post.value.key == ""
  }

  function Refusal(post: Option<Post>): StoreError {
    if post.None? then NilArgument else EmptyId
  }

  /** The index of the first post that is refused, or their number if none is. */
  function FirstRefused(posts: seq<Option<Post>>): (k: nat)
    ensures k <= |posts|
    ensures forall i | 0 <= i < k :: !Refused(posts[i])
    ensures k < |posts| ==> Refused(posts[k])
  {
    if posts == [] || Refused(posts[0]) then 0 else 1 + FirstRefused(posts[1..])
  }

  /** The posts that have not been deleted, in order. */
  function Undeleted(posts: seq<Option<Post>>): seq<Post> {
    if posts == [] then []
    else
      var p := posts[|posts| - 1];
      Undeleted(posts[..|posts| - 1]) + if p.Some? && p.value.rest.deleteAt <= 0 then [p.value] else []
  }

  lemma UndeletedStep(posts: seq<Option<Post>>, i: nat)
    requires i < |posts|
    ensures posts[i].Some? && posts[i].value.rest.deleteAt <= 0 ==>
              Undeleted(posts[..i + 1]) == Undeleted(posts[..i]) + [posts[i].value]
    ensures posts[i].Some? && posts[i].value.rest.deleteAt > 0 ==> Undeleted(posts[..i + 1]) == Undeleted(posts[..i])
  {
    assert posts[..i + 1][..i] == posts[..i];
  }

  lemma FirstIs(posts: seq<Option<Post>>, k: nat)
    requires k <= |posts| && (k < |posts| ==> Refused(posts[k]))
    requires forall i | 0 <= i < k :: !Refused(posts[i])
    ensures FirstRefused(posts) == k
  {
  }

  lemma NoneYet(h: History<string, PostData>)
    ensures Undeleted([]) == [] && h + Writes(Undeleted([])) == h
  {
  }

  lemma OneMorePost(h: History<string, PostData>, posts: seq<Option<Post>>, i: nat)
    requires i < |posts| && !Refused(posts[i])
    ensures h + Writes(Undeleted(posts[..i + 1]))
            == if posts[i].value.rest.deleteAt > 0 then h + Writes(Undeleted(posts[..i]))
               else h + Writes(Undeleted(posts[..i])) + [Write(posts[i].value.key, posts[i].value.rest)]
  {
    UndeletedStep(posts, i);
  }

  function Writes<K, V>(rs: seq<Record<K, V>>): History<K, V> {
    seq(|rs|, i requires 0 <= i < |rs| => Write(rs[i].key, rs[i].rest))
  }

  /** The last write of a key is read back, unless as many writes as there are slots came after it. */
  lemma {:induction false} LastWriteRead<K, V>(h: History<K, V>, rs: seq<Record<K, V>>, n: nat, i: nat)
    requires i < |rs| && |rs| - i <= n && forall j | i < j < |rs| :: rs[j].key != rs[i].key
    ensures Stored(h + Writes(rs), n, rs[i].key) == Some(rs[i])
  {
    var last := |rs| - 1;
    var all, before := h + Writes(rs), h + Writes(rs[..last]);
    assert all == before + [Write(rs[last].key, rs[last].rest)];
    assert all[..|all| - 1] == before;
    if i < last {
      LastWriteRead(h, rs[..last], n - 1, i);
    }
  }

  lemma WriteRead<K, V>(h: History<K, V>, r: Record<K, V>, n: nat)
    requires 0 < n
    ensures Stored(h + [Write(r.key, r.rest)], n, r.key) == Some(r)
  {
  }

  lemma Unread<K, V>(h: History<K, V>, n: nat, k: K)
    ensures Stored(h + [Delete(k)], n, k) == None && Stored(h + [Op.Clear], n, k) == None
  {
  }

  ghost predicate NothingStored<K(!new), V>(h: History<K, V>, n: nat) {
    forall k :: Stored(h, n, k) == None
  }

  lemma ClearedIsEmpty<K(!new), V>(h: History<K, V>, n: nat)
    ensures NothingStored(h + [Op.Clear], n)
  {
  }

  /** Each of these records is read back, unless a later one has its key or it is not among the last n. */
  ghost predicate ReadBack<K(!new), V>(h: History<K, V>, rs: seq<Record<K, V>>, n: nat) {
    forall i | 0 <= i < |rs| && |rs| - i <= n && (forall j | i < j < |rs| :: rs[j].key != rs[i].key) ::
      Stored(h, n, rs[i].key) == Some(rs[i])
  }

  lemma WritesReadBack<K(!new), V>(h: History<K, V>, rs: seq<Record<K, V>>, n: nat)
    ensures ReadBack(h + Writes(rs), rs, n)
  {
    forall i: nat | i < |rs| && |rs| - i <= n && (forall j | i < j < |rs| :: rs[j].key != rs[i].key)
      ensures Stored(h + Writes(rs), n, rs[i].key) == Some(rs[i])
    {
      LastWriteRead(h, rs, n, i);
    }
  }

  method NewCache<K(==), V>(size: int, zero: Record<K, V>) returns (r: Result<BoundedCache<K, V>, QueueError>)
    ensures r.Ok? <==> 0 < size
    ensures r.Ok? ==> r.value.Valid() && fresh(r.value.Footprint()) && r.value.log == [] && r.value.queue.size == size
  {
    var q := NewCQueue(size, Some(zero));
    if q.Err? { return Err(q.error); }
    var c := new BoundedCache(q.value);
    return Ok(c);
  }

  method NewMemberCache<A(==, !new), B(==, !new), V>(size: int, zero: Record<(A, B), V>)
    returns (r: Result<MemberCache<A, B, V>, QueueError>)
    ensures r.Ok? <==> 0 < size
    ensures r.Ok? ==> r.value.Valid() && fresh(r.value.Footprint()) && r.value.log == [] && r.value.queue.size == size
  {
    var q := NewCQueue(size, Some(zero));
    if q.Err? { return Err(q.error); }
    var c := new MemberCache(q.value);
    return Ok(c);
  }

  ghost predicate Apart(a: set<object>, b: set<object>, c: set<object>, d: set<object>) {
    a !! b && a !! c && a !! d && b !! c && b !! d && c !! d
  }

  class MemStore {
    const posts: BoundedCache<string, PostData>
    const users: BoundedCache<string, UserData>
    const statuses: BoundedCache<string, StatusData>
    const members: MemberCache<string, string, MemberData>
    var userId: string // the id of the current user

    ghost predicate Valid()
      reads this, posts, posts.queue, posts.queue.Repr, users, users.queue, users.queue.Repr,
            statuses, statuses.queue, statuses.queue.Repr, members, members.queue, members.queue.Repr
    {
      && posts.Valid() && users.Valid() && statuses.Valid() && members.Valid()
      && Separate()
    }

    /** No slot, queue or map of one cache is part of another. */
    ghost predicate Separate()
      reads this, posts, posts.queue, users, users.queue, statuses, statuses.queue, members, members.queue
    {
      Apart(posts.Footprint(), users.Footprint(), statuses.Footprint(), members.Footprint())
    }

    constructor (posts: BoundedCache<string, PostData>, users: BoundedCache<string, UserData>,
                 statuses: BoundedCache<string, StatusData>, members: MemberCache<string, string, MemberData>,
                 userId: string)
      requires posts.Valid() && users.Valid() && statuses.Valid() && members.Valid()
      requires Apart(posts.Footprint(), users.Footprint(), statuses.Footprint(), members.Footprint())
      ensures Valid()
      ensures this.posts == posts && this.users == users && this.statuses == statuses && this.members == members
      ensures this.userId == userId
    {
      hide Coupled, Flattens, CQueue.Valid;
      this.posts, this.users, this.statuses, this.members := posts, users, statuses, members;
      this.userId := userId;
    }

    /** New and setupQueues: the first queue that cannot be made is reported, otherwise all four
        caches start empty. */
    static method New(config: Config, userId: string) returns (r: Result<MemStore, QueueError>)
      ensures r.Ok? <==> 0 < config.maxPosts && 0 < config.maxUsers && 0 < config.maxMembers && 0 < config.maxStatuses
      ensures r.Ok? ==> fresh(r.value) && r.value.Valid()
      ensures r.Ok? ==> r.value.posts.log == [] && r.value.users.log == []
                        && r.value.statuses.log == [] && r.value.members.log == []
      ensures r.Ok? ==> r.value.posts.queue.size == config.maxPosts && r.value.users.queue.size == config.maxUsers
      ensures r.Ok? ==> r.value.statuses.queue.size == config.maxStatuses
      ensures r.Ok? ==> r.value.members.queue.size == config.maxMembers
    {
      hide Coupled, Flattens, CQueue.Valid, BoundedCache.Valid, MemberCache.Valid;
      var posts := NewCache(config.maxPosts, NO_POST);
      if posts.Err? { return Err(posts.error); }
      var users := NewCache(config.maxUsers, NO_USER);
      if users.Err? { return Err(users.error); }
      var members := NewMemberCache(config.maxMembers, NO_MEMBER);
      if members.Err? { return Err(members.error); }
      var statuses := NewCache(config.maxStatuses, NO_STATUS);
      if statuses.Err? { return Err(statuses.error); }
      var s := new MemStore(posts.value, users.value, statuses.value, members.value, userId);
      return Ok(s);
    }

    method SetPost(post: Option<Post>) returns (err: Option<StoreError>)
      requires Valid()
      modifies posts, posts.queue.Repr
      ensures Valid() && fresh(posts.queue.Repr - old(posts.queue.Repr))
      ensures post.None? ==> err == Some(NilArgument) && posts.log == old(posts.log)
      ensures post.Some? && post.value.key == "" ==> err == Some(EmptyId) && posts.log == old(posts.log)
      // Deleted posts are silently skipped.
      ensures !Refused(post) && post.value.rest.deleteAt > 0 ==> err == None && posts.log == old(posts.log)
      ensures !Refused(post) && post.value.rest.deleteAt <= 0 ==>
                && err == None && posts.log == old(posts.log) + [Write(post.value.key, post.value.rest)]
                && Stored(posts.log, posts.queue.size, post.value.key) == post
    {
      hide Coupled, Flattens, CQueue.Valid, Stored;
      if post.None? {
        return Some(NilArgument);
      }
      if post.value.key == "" {
        return Some(EmptyId);
      }
      if post.value.rest.deleteAt > 0 {
        return None;
      }
      StorePost(post.value);
      return None;
    }

    method StorePost(post: Post)
      requires Valid()
      modifies posts, posts.queue.Repr
      ensures Valid() && fresh(posts.queue.Repr - old(posts.queue.Repr))
      ensures posts.log == old(posts.log) + [Write(post.key, post.rest)]
      ensures Stored(posts.log, posts.queue.size, post.key) == Some(post)
    {
      hide Coupled, Flattens, Stored;
      WriteRead(posts.log, post, posts.queue.size);
      posts.Set(post);
    }

    /** Stops at the first refused post; the posts before it stay stored, except deleted ones. */
    method SetPosts(posts: seq<Option<Post>>) returns (err: Option<StoreError>)
      requires Valid()
      modifies this.posts, this.posts.queue.Repr
      ensures Valid() && fresh(this.posts.queue.Repr - old(this.posts.queue.Repr))
      ensures var k, size := FirstRefused(posts), this.posts.queue.size;
              && this.posts.log == old(this.posts.log) + Writes(Undeleted(posts[..k]))
              && ReadBack(this.posts.log, Undeleted(posts[..k]), size)
              && err == if posts == [] then Some(NilArgument)
                        else if k == |posts| then None else Some(Refusal(posts[k]))
    {
      hide Valid, Undeleted, FirstRefused, Stored, ReadBack;
      ghost var before := this.posts.log;
      NoneYet(before);
      if |posts| == 0 {
        FirstIs(posts, 0);
        WritesReadBack(before, Undeleted(posts[..0]), this.posts.queue.size);
        return Some(NilArgument);
      }
      for i := 0 to |posts|
        invariant Valid() && fresh(this.posts.queue.Repr - old(this.posts.queue.Repr))
        invariant forall j | 0 <= j < i :: !Refused(posts[j])
        invariant this.posts.log == before + Writes(Undeleted(posts[..i]))
      {
        err := SetPost(posts[i]);
        if err.Some? {
          FirstIs(posts, i);
          WritesReadBack(before, Undeleted(posts[..i]), this.posts.queue.size);
          return;
        }
        OneMorePost(before, posts, i);
      }
      FirstIs(posts, |posts|);
      WritesReadBack(before, Undeleted(posts[..|posts|]), this.posts.queue.size);
      return None;
    }

    method StoreUser(user: User)
      requires Valid()
      modifies users, users.queue.Repr
      ensures Valid() && fresh(users.queue.Repr - old(users.queue.Repr))
      ensures users.log == old(users.log) + [Write(user.key, user.rest)]
    {
      hide Coupled, Flattens, CQueue.Valid;
      users.Set(user);
    }

    method StoreMember(member: Member)
      requires Valid()
      modifies members, members.queue.Repr
      ensures Valid() && fresh(members.queue.Repr - old(members.queue.Repr))
      ensures members.log == old(members.log) + [Write(member.key, member.rest)]
      ensures Stored(members.log, members.queue.size, member.key) == Some(member)
    {
      hide Coupled, Flattens, Stored;
      WriteRead(members.log, member, members.queue.size);
      members.Set(member);
    }

    method DeletePost(postId: string)
      requires Valid()
      modifies posts
      ensures Valid() && posts.log == old(posts.log) + [Delete(postId)]
      ensures Stored(posts.log, posts.queue.size, postId) == None
    {
      Unread(posts.log, posts.queue.size, postId);
      posts.Delete(postId);
    }

    /** No check on the users' ids: a user without id is stored under the empty key. */
    method SetUsers(users: seq<User>)
      requires Valid()
      modifies this.users, this.users.queue.Repr
      ensures Valid() && fresh(this.users.queue.Repr - old(this.users.queue.Repr))
      ensures this.users.log == old(this.users.log) + Writes(users)
      ensures ReadBack(this.users.log, users, this.users.queue.size)
    {
      hide Valid, ReadBack;
      WritesReadBack(this.users.log, users, this.users.queue.size);
      for i := 0 to |users|
        invariant Valid() && fresh(this.users.queue.Repr - old(this.users.queue.Repr))
        invariant this.users.log == old(this.users.log) + Writes(users)[..i]
      {
        StoreUser(users[i]);
      }
    }

    method StoreStatus(status: Status)
      requires Valid()
      modifies statuses, statuses.queue.Repr
      ensures Valid() && fresh(statuses.queue.Repr - old(statuses.queue.Repr))
      ensures statuses.log == old(statuses.log) + [Write(status.key, status.rest)]
      ensures Stored(statuses.log, statuses.queue.size, status.key) == Some(status)
    {
      hide Coupled, Flattens, Stored;
      WriteRead(statuses.log, status, statuses.queue.size);
      statuses.Set(status);
    }

    method SetStatus(userId: string, status: Option<Status>) returns (err: Option<StoreError>)
      requires Valid()
      modifies statuses, statuses.queue.Repr
      ensures Valid() && fresh(statuses.queue.Repr - old(statuses.queue.Repr))
      ensures err == if userId == "" then Some(EmptyId) else if status.None? then Some(NilArgument)
                     else if userId != status.value.key then Some(KeyMismatch) else None
      ensures statuses.log == old(statuses.log) + if err.None? then [Write(userId, status.value.rest)] else []
      ensures err.None? ==> Stored(statuses.log, statuses.queue.size, userId) == status
    {
      hide Coupled, Flattens, CQueue.Valid, Stored;
      if |userId| == 0 {
        return Some(EmptyId);
      }
      if status.None? {
        return Some(NilArgument);
      }
      if userId != status.value.key {
        return Some(KeyMismatch);
      }
      StoreStatus(status.value);
      return None;
    }

    method SetChannelMembers(channelMembers: Option<seq<Member>>) returns (err: Option<StoreError>)
      requires Valid()
      modifies members, members.queue.Repr
      ensures Valid() && fresh(members.queue.Repr - old(members.queue.Repr))
      ensures err == if channelMembers.None? then Some(NilArgument) else None
      ensures members.log == old(members.log) + if err.None? then Writes(channelMembers.value) else []
      ensures err.None? ==> ReadBack(members.log, channelMembers.value, members.queue.size)
    {
      hide Valid, ReadBack;
      if channelMembers.None? {
        return Some(NilArgument);
      }
      var cms := channelMembers.value;
      WritesReadBack(members.log, cms, members.queue.size);
      for i := 0 to |cms|
        invariant Valid() && fresh(members.queue.Repr - old(members.queue.Repr))
        invariant members.log == old(members.log) + Writes(cms)[..i]
      {
        StoreMember(cms[i]);
      }
      return None;
    }

    method SetChannelMember(channelId: string, channelMember: Option<Member>) returns (err: Option<StoreError>)
      requires Valid()
      modifies members, members.queue.Repr
      ensures Valid() && fresh(members.queue.Repr - old(members.queue.Repr))
      ensures err == if channelMember.None? then Some(NilArgument)
                     else if channelId != channelMember.value.key.0 then Some(KeyMismatch) else None
      ensures members.log == old(members.log)
                             + if err.None? then [Write(channelMember.value.key, channelMember.value.rest)] else []
      ensures err.None? ==> Stored(members.log, members.queue.size, channelMember.value.key) == channelMember
    {
      hide Valid, Stored;
      if channelMember.None? {
        return Some(NilArgument);
      }
      if channelId != channelMember.value.key.0 {
        return Some(KeyMismatch);
      }
      StoreMember(channelMember.value);
      return None;
    }

    method RemoveChannelMember(channelId: string, userId: string)
      requires Valid()
      modifies members
      ensures Valid() && members.log == old(members.log) + [Delete((channelId, userId))]
      ensures Stored(members.log, members.queue.size, (channelId, userId)) == None
    {
      Unread(members.log, members.queue.size, (channelId, userId));
      members.Delete((channelId, userId));
    }

    /** Empties all four caches. Their slots stay allocated and keep their contents. */
    method Clear()
      requires Valid()
      modifies posts, posts.queue, users, users.queue, statuses, statuses.queue, members, members.queue
      ensures Valid()
      ensures posts.log == old(posts.log) + [Op.Clear] && users.log == old(users.log) + [Op.Clear]
      ensures statuses.log == old(statuses.log) + [Op.Clear] && members.log == old(members.log) + [Op.Clear]
      ensures NothingStored(posts.log, posts.queue.size) && NothingStored(users.log, users.queue.size)
      ensures NothingStored(statuses.log, statuses.queue.size) && NothingStored(members.log, members.queue.size)
    {
      hide Coupled, Flattens, CQueue.Valid, NothingStored;
      hide Apart;
      ClearedIsEmpty(posts.log, posts.queue.size);
      ClearedIsEmpty(users.log, users.queue.size);
      ClearedIsEmpty(statuses.log, statuses.queue.size);
      ClearedIsEmpty(members.log, members.queue.size);
      ClearChannelState();
      ClearUserState();
    }

    method ClearChannelState()
      requires Valid()
      modifies posts, posts.queue, members, members.queue
      ensures Valid()
      ensures posts.log == old(posts.log) + [Op.Clear] && members.log == old(members.log) + [Op.Clear]
      ensures users.log == old(users.log) && statuses.log == old(statuses.log)
    {
      hide Coupled, Flattens, CQueue.Valid;
      posts.Clear();
      members.Clear();
    }

    method ClearUserState()
      requires Valid()
      modifies users, users.queue, statuses, statuses.queue
      ensures Valid()
      ensures users.log == old(users.log) + [Op.Clear] && statuses.log == old(statuses.log) + [Op.Clear]
      ensures posts.log == old(posts.log) && members.log == old(members.log)
    {
      hide Coupled, Flattens, CQueue.Valid;
      users.Clear();
      statuses.Clear();
    }

    method GetPost(postId: string) returns (r: Result<Post, StoreError>)
      requires Valid()
      ensures r == match Stored(posts.log, posts.queue.size, postId)
                   case Some(p) => Ok(p)
                   case None => Err(NotFound)
    {
      var p := posts.Get(postId);
      return if p.Some? then Ok(p.value) else Err(NotFound);
    }

    /** A user that is not stored reads as the zero struct, not as an error. */
    method GetUser(userId: string) returns (r: Result<User, StoreError>)
      requires Valid()
      ensures r == if userId == "" then Err(EmptyId)
                   else match Stored(users.log, users.queue.size, userId)
                        case Some(u) => Ok(u)
                        case None => Ok(NO_USER)
    {
      if |userId| == 0 {
        return Err(EmptyId);
      }
      var u := users.Get(userId);
      return Ok(if u.Some? then u.value else NO_USER);
    }

    method GetStatus(userId: string) returns (r: Result<Status, StoreError>)
      requires Valid()
      ensures r == if userId == "" then Err(EmptyId)
                   else match Stored(statuses.log, statuses.queue.size, userId)
                        case Some(st) => Ok(st)
                        case None => Ok(NO_STATUS)
    {
      if |userId| == 0 {
        return Err(EmptyId);
      }
      var st := statuses.Get(userId);
      return Ok(if st.Some? then st.value else NO_STATUS);
    }

    method GetChannelMember(channelId: string, userId: string) returns (r: Member)
      requires Valid()
      ensures r == match Stored(members.log, members.queue.size, (channelId, userId))
                   case Some(cm) => cm
                   case None => NO_MEMBER
    {
      var cm := members.Get((channelId, userId));
      return if cm.Some? then cm.value else NO_MEMBER;
    }
  }
}
