/**
 * The `getUserChannel` aggregation as pure functions over the user table and
 * the `subscriptions` collection: the `$lookup` of a channel's subscription
 * rows, the `$size` and `$in` fields computed from them, and the
 * `$project`ion. Also the `$first` collapse of a looked-up owner array used
 * by the watch-history pipeline.
 */
module Channels {
  import opened Wrappers
  import opened Strings
  import opened Crypto
  import opened Responses
  import opened UserModel

  /** A row of the `subscriptions` collection: `subscriber` follows `channel`. */
  datatype Subscription = Subscription(subscriber: UserId, channel: UserId)

  /** What the `$project` stage keeps (`_id` is kept by default). */
  datatype ChannelProfile = ChannelProfile(
    id: UserId,
    fullName: string,
    username: string,
    subscribersCount: nat,
    isSubscribed: bool,
    avatar: string,
    coverImage: string)

  /** The `$lookup` with `localField: "_id"`, `foreignField: "channel"`: the rows naming the channel, in order. */
  function SubscribersOf(subs: seq<Subscription>, channel: UserId): (rows: seq<Subscription>)
    ensures |rows| <= |subs|
    ensures forall row :: row in rows <==> row in subs && row.channel == channel
  {
    if |subs| == 0 then []
    else if subs[0].channel == channel then [subs[0]] + SubscribersOf(subs[1..], channel)
    else SubscribersOf(subs[1..], channel)
  }

  /** The lookup keeps every row of the channel as often as it occurs, and no other row. */
  lemma {:induction false} SubscribersOfCounts(subs: seq<Subscription>, channel: UserId, row: Subscription)
    ensures multiset(SubscribersOf(subs, channel))[row] == if row.channel == channel then multiset(subs)[row] else 0
  {
    if |subs| > 0 {
      SubscribersOfCounts(subs[1..], channel, row);
      assert subs == [subs[0]] + subs[1..];
    }
  }

  /** `$size: "$subscribers"`: at most the number of rows, and zero exactly when no row names the channel. */
  function SubscriberCount(subs: seq<Subscription>, channel: UserId): (n: nat)
    ensures n <= |subs|
    ensures n == 0 <==> forall row :: row in subs ==> row.channel != channel
  {
    var rows := SubscribersOf(subs, channel);
    assert rows != [] ==> rows[0] in rows;
    |rows|
  }

  /** A new subscription row adds one to its own channel's count and leaves every other channel's alone. */
  lemma {:induction false} SubscriberCountAppend(subs: seq<Subscription>, row: Subscription, channel: UserId)
    ensures SubscriberCount(subs + [row], channel) ==
            SubscriberCount(subs, channel) + (if row.channel == channel then 1 else 0)
  {
    if |subs| > 0 {
      assert (subs + [row])[1..] == subs[1..] + [row];
      SubscriberCountAppend(subs[1..], row, channel);
    } else {
      assert subs + [row] == [row];
    }
  }

  /**
   * `$in: [req.user._id, "$subscribers.subscriber"]`: set exactly when the
   * viewer has a subscription row for the channel.
   */
  function IsSubscribed(subs: seq<Subscription>, channel: UserId, viewer: UserId): (b: bool)
    ensures b <==> Subscription(viewer, channel) in subs
  {
    var rows := SubscribersOf(subs, channel);
    assert Subscription(viewer, channel) in subs ==> Subscription(viewer, channel) in rows;
    exists row :: row in rows && row.subscriber == viewer
  }

  /** The `$addFields` and `$project` stages applied to one matched user. */
  function Profile(id: UserId, user: UserRecord, subs: seq<Subscription>, viewer: UserId): (p: ChannelProfile)
    ensures p.id == id && p.username == user.username && p.fullName == user.fullName
    ensures p.avatar == user.avatar && p.coverImage == user.coverImage
    ensures p.subscribersCount == |SubscribersOf(subs, id)|
    ensures p.isSubscribed <==> Subscription(viewer, id) in subs
  {
    ChannelProfile(id, user.fullName, user.username, SubscriberCount(subs, id),
                   IsSubscribed(subs, id, viewer), user.avatar, user.coverImage)
  }

  /**
   * `getUserChannel` as written. A blank username is refused with 400; the
   * pipeline array reads `req.user._id` as it is built, which throws when no
   * user is attached; and since `aggregate` is not awaited, `channel` is a
   * query object with no `length`, so every other request gets 404.
   */
  function GetUserChannel(username: string, viewer: Option<UserId>): (r: Outcome<ChannelProfile>)
    ensures !r.Ok?
    ensures Trim(username) == [] ==> r == Err(ApiError(400, "Username is missing"))
    ensures Trim(username) != [] && viewer.None? ==> r.Crash?
    ensures Trim(username) != [] && viewer.Some? ==> r == Err(ApiError(404, "Channel does not exists"))
  {
    if Trim(username) == [] then Err(ApiError(400, "Username is missing"))
    else if viewer.None? then Crash("TypeError: cannot read properties of undefined (reading '_id')")
    else Err(ApiError(404, "Channel does not exists"))
  }

  /**
   * `getUserChannel` with the aggregation awaited: the first user whose
   * stored username equals the lower-cased parameter (the `$match` stage
   * does not trim), profiled against the subscription rows.
   */
  function GetUserChannelAwaited(records: map<UserId, UserRecord>, bound: nat, subs: seq<Subscription>,
                                 username: string, viewer: Option<UserId>): (r: Outcome<ChannelProfile>)
    ensures Trim(username) == [] ==> r == Err(ApiError(400, "Username is missing"))
    ensures Trim(username) != [] && viewer.None? ==> r.Crash?
    ensures Trim(username) != [] && viewer.Some? &&
            (forall id :: id in records && id < bound ==> records[id].username != ToLower(username)) ==>
            r == Err(ApiError(404, "Channel does not exists"))
    ensures Trim(username) != [] && viewer.Some? &&
            (exists id :: id in records && id < bound && records[id].username == ToLower(username)) ==>
            r.Ok?
    ensures r.Ok? ==>
      && r.status == 200 && r.message == "Channel fetched successfully"
      && viewer.Some? && r.data.id in records && r.data.id < bound
      && records[r.data.id].username == ToLower(username) == r.data.username
      && r.data.fullName == records[r.data.id].fullName
      && r.data.avatar == records[r.data.id].avatar
      && r.data.coverImage == records[r.data.id].coverImage
      && r.data.subscribersCount == |SubscribersOf(subs, r.data.id)|
      && (r.data.isSubscribed <==> Subscription(viewer.value, r.data.id) in subs)
  {
    if Trim(username) == [] then Err(ApiError(400, "Username is missing"))
    else if viewer.None? then Crash("TypeError: cannot read properties of undefined (reading '_id')")
    else
      match FindOne(records, bound, ByStoredUsername(ToLower(username)))
      case None => Err(ApiError(404, "Channel does not exists"))
      case Some(id) =>
        Ok(200, Profile(id, records[id], subs, viewer.value), "Channel fetched successfully")
  }

  // --------------------------------------------- watch-history owner

  /** The owner fields the inner `$project` keeps. */
  datatype OwnerSummary = OwnerSummary(id: UserId, fullName: string, username: string, avatar: string)

  /** The inner `$lookup` of a video's owner by `_id`, projected. */
  function OwnerLookup(records: map<UserId, UserRecord>, owner: UserId): seq<OwnerSummary> {
    if owner in records
    then [OwnerSummary(owner, records[owner].fullName, records[owner].username, records[owner].avatar)]
    else []
  }

  /** `$addFields: { owner: { $first: "$owner" } }`: the array's first element, or no field for an empty array. */
  function FirstOwner(owners: seq<OwnerSummary>): Option<OwnerSummary> {
    if |owners| == 0 then None else Some(owners[0])
  }

  /** Collapsing the owner lookup yields the owner's summary, or nothing when no user has that id. */
  lemma OwnerCollapse(records: map<UserId, UserRecord>, owner: UserId)
    ensures FirstOwner(OwnerLookup(records, owner)).Some? <==> owner in records
    ensures owner in records ==>
      FirstOwner(OwnerLookup(records, owner)).value ==
        OwnerSummary(owner, records[owner].fullName, records[owner].username, records[owner].avatar)
  {
  }
}
