/**
 * The profile endpoints: `fetch_profile_data` dispatches on the user's type
 * to one of three payloads, `store_user_image` accepts a data URL or an
 * uploaded file, and the unfollow, unsubscribe and donate endpoints change
 * the follower, subscription and donation tables of the session user.
 */
module ProfileController {
  import opened Wrappers
  import opened Backend

  /** Result rows passed through to the client unchanged. */
  type Rows = seq<map<string, string>>

  /** The user row `findUserById` returns; only its type is inspected. */
  datatype UserRecord = UserRecord(userId: int, userType: Option<string>, columns: map<string, string>)

  /** The `[rows, fields]` pair a tag-model query resolves to, sent as it is. */
  datatype QueryPair = QueryPair(rows: Rows, fields: seq<string>)

  /**
   * The outcomes of the lookups `fetch_profile_data` may await, in the order
   * they are awaited; which of them run depends on the user's type.
   */
  datatype Lookups = Lookups(
    user: Query<Option<UserRecord>>, image: Query<Option<seq<byte>>>,
    followings: Query<Rows>, subscriptions: Query<Rows>, donations: Query<Rows>,
    adminId: Query<Rows>, allSubscriptions: Query<Rows>, allDonations: Query<Rows>,
    actions: Query<Rows>, tags: Query<QueryPair>, verifications: Query<Rows>,
    ngoInfo: Query<Rows>, followers: Query<Rows>, ngoDonations: Query<Rows>, postVolunt: Query<Rows>)

  datatype ProfilePayload =
    | UserProfile(user: UserRecord, followings: Rows, subscriptions: Rows, donations: Rows, image: Option<string>)
    | AdminProfile(user: UserRecord, adminId: Rows, image: Option<string>, allSubscriptions: Rows,
                   allDonations: Rows, tags: QueryPair, verifications: Rows, actions: Rows)
    | NgoProfile(ngoUser: Rows, followers: Rows, followings: Rows, donations: Rows, postVolunt: Rows, image: Option<string>)

  datatype ProfileReply =
    | NoSession          // 401 'Unauthorized'
    | UserNotFound       // 404 'User not found'
    | Profile(payload: ProfilePayload)  // 200
    | ProfileError       // 500 'Error retrieving user data'
  {
    function Status(): int {
      match this
      case NoSession => 401
      case UserNotFound => 404
      case Profile(_) => 200
      case ProfileError => 500
    }
  }

  const DataUrlPrefix := "data:image/png;base64,"

  /**
   * The `image` field: null without a stored image, else a PNG data URL
   * around the base64 text of the bytes. `base64` is the encoder; a stored
   * buffer is an object, so even an empty one is truthy.
   */
  function ImageUrl(image: Option<seq<byte>>, base64: seq<byte> -> string): (r: Option<string>)
    ensures r.None? <==> image.None?
    ensures r.Some? ==> |r.value| >= |DataUrlPrefix| && r.value[..|DataUrlPrefix|] == DataUrlPrefix
                        && r.value[|DataUrlPrefix|..] == base64(image.value)
  {
    match image
    case None => None
    case Some(bytes) => Some(DataUrlPrefix + base64(bytes))
  }

  /** Every query of the branch for `userType` succeeded. */
  predicate BranchSucceeds(userType: Option<string>, l: Lookups) {
    if userType == Some("user") then l.followings.Rows? && l.subscriptions.Rows? && l.donations.Rows?
    else if userType == Some("admin") then
      l.adminId.Rows? && l.allSubscriptions.Rows? && l.allDonations.Rows? && l.actions.Rows?
      && l.tags.Rows? && l.verifications.Rows?
    else l.ngoInfo.Rows? && l.followers.Rows? && l.followings.Rows? && l.ngoDonations.Rows? && l.postVolunt.Rows?
  }

  /** `fetch_profile_data` for the session user, over the outcomes of its lookups. */
  function FetchProfileData(session: Option<SessionUser>, l: Lookups, base64: seq<byte> -> string): (r: ProfileReply)
    ensures r == NoSession <==> session.None?
    ensures r == UserNotFound <==> session.Some? && l.user == Rows(None)
    ensures r == ProfileError <==>
      session.Some? && (l.user.DbError?
                        || (l.user.rows.Some? && (l.image.DbError? || !BranchSucceeds(l.user.rows.value.userType, l))))
    ensures r.Profile? ==>
      l.user.Rows? && l.user.rows.Some? && l.image.Rows?
      && var u := l.user.rows.value;
      && var image := ImageUrl(l.image.rows, base64);
      && (u.userType == Some("user") ==>
           r.payload == UserProfile(u, l.followings.rows, l.subscriptions.rows, l.donations.rows, image))
      && (u.userType == Some("admin") ==>
           r.payload == AdminProfile(u, l.adminId.rows, image, l.allSubscriptions.rows, l.allDonations.rows,
                                     l.tags.rows, l.verifications.rows, l.actions.rows))
      && (u.userType != Some("user") && u.userType != Some("admin") ==>
           r.payload == NgoProfile(l.ngoInfo.rows, l.followers.rows, l.followings.rows, l.ngoDonations.rows,
                                   l.postVolunt.rows, image))
  {
    if session.None? then NoSession
    else if l.user.DbError? then ProfileError
    else if l.user.rows.None? then UserNotFound
    else if l.image.DbError? || !BranchSucceeds(l.user.rows.value.userType, l) then ProfileError
    else
      var u := l.user.rows.value;
      var image := ImageUrl(l.image.rows, base64);
      if u.userType == Some("user") then
        Profile(UserProfile(u, l.followings.rows, l.subscriptions.rows, l.donations.rows, image))
      else if u.userType == Some("admin") then
        Profile(AdminProfile(u, l.adminId.rows, image, l.allSubscriptions.rows, l.allDonations.rows,
                             l.tags.rows, l.verifications.rows, l.actions.rows))
      else
        Profile(NgoProfile(l.ngoInfo.rows, l.followers.rows, l.followings.rows, l.ngoDonations.rows,
                           l.postVolunt.rows, image))
  }

  /** `s.split(",").pop()`: the text after the last comma, or all of `s` without one. */
  function AfterLastComma(s: string): (r: string)
    ensures |r| <= |s| && r == s[|s| - |r|..]
    ensures ',' !in r
    ensures ',' in s ==> |r| < |s| && s[|s| - |r| - 1] == ','
    ensures ',' !in s ==> r == s
  {
    if s == [] then []
    else if s[|s| - 1] == ',' then []
    else
      var r := AfterLastComma(s[..|s| - 1]);
      assert ',' in s[..|s| - 1] ==> ',' in s;
      assert ',' in s ==> ',' in s[..|s| - 1] by {
        if ',' in s {
          var i :| 0 <= i < |s| && s[i] == ',';
          assert s[..|s| - 1][i] == ',';
        }
      }
      r + [s[|s| - 1]]
  }

  /** A data URL keeps only its payload: the prefix up to the comma is dropped. */
  lemma AfterLastCommaOfDataUrl(payload: string)
    requires ',' !in payload
    ensures AfterLastComma(DataUrlPrefix + payload) == payload
  {
    var s := DataUrlPrefix + payload;
    var r := AfterLastComma(s);
    assert s[|DataUrlPrefix| - 1] == ',';
    assert ',' in s;
  }

  /** Where `store_user_image` takes the image from. */
  datatype ImageSource = FromDataUrl(base64: string) | FromFile(bytes: seq<byte>) | NoImage

  /** A truthy `imageBase64` wins over an uploaded file buffer; with neither there is no image. */
  function ChooseImage(imageBase64: Option<string>, file: Option<seq<byte>>): (r: ImageSource)
    ensures r == NoImage <==> !Truthy(imageBase64) && file.None?
    ensures Truthy(imageBase64) ==> r == FromDataUrl(AfterLastComma(imageBase64.value))
    ensures !Truthy(imageBase64) && file.Some? ==> r == FromFile(file.value)
  {
    if Truthy(imageBase64) then FromDataUrl(AfterLastComma(imageBase64.value))
    else if file.Some? then FromFile(file.value)
    else NoImage
  }

  /** The replies of the image, unfollow, unsubscribe and donate endpoints. */
  datatype ActionReply =
    | Crashed              // `req.session.user.id` threw before any reply
    | Unauthorized         // 401
    | NoImageProvided      // 400 'No image provided'
    | Done(message: string)  // 200
    | ImageSaved(affectedRows: int)  // 200 'Profile image saved successfully', with the UPDATE's row count
    | InternalError        // 500

  datatype Follow = Follow(userId: int, ngoId: int)
  datatype Subscription = Subscription(userId: int, ngoId: int, status: string)
  datatype Donation = Donation(userId: int, ngoId: Option<int>, amount: Option<string>)

  function Unfollowed(follows: seq<Follow>, userId: int, ngoId: int): (r: seq<Follow>)
    ensures forall f :: f in r <==> f in follows && f != Follow(userId, ngoId)
    ensures |r| <= |follows|
  {
    if follows == [] then []
    else (if follows[0] == Follow(userId, ngoId) then [] else [follows[0]]) + Unfollowed(follows[1..], userId, ngoId)
  }

  function Canceled(subs: seq<Subscription>, userId: int, ngoId: int): (r: seq<Subscription>)
    ensures |r| == |subs|
    ensures forall i :: 0 <= i < |r| ==> r[i].(status := subs[i].status) == subs[i]
    ensures forall i :: 0 <= i < |r| && subs[i].userId == userId && subs[i].ngoId == ngoId ==> r[i].status == "canceled"
    ensures forall i :: 0 <= i < |r| && !(subs[i].userId == userId && subs[i].ngoId == ngoId) ==> r[i] == subs[i]
  {
    if subs == [] then []
    else [if subs[0].userId == userId && subs[0].ngoId == ngoId then subs[0].(status := "canceled") else subs[0]]
         + Canceled(subs[1..], userId, ngoId)
  }

  /** The tables the profile endpoints write. */
  class ProfileStore {
    var images: map<int, seq<byte>>
    var follows: seq<Follow>
    var subscriptions: seq<Subscription>
    var donations: seq<Donation>

    constructor (f: seq<Follow>, s: seq<Subscription>, d: seq<Donation>)
      ensures images == map[] && follows == f && subscriptions == s && donations == d
    {
      images, follows, subscriptions, donations := map[], f, s, d;
    }

    /**
     * `store_user_image`; `decode` is the base64 decoder, `fault` a failed
     * UPDATE and `affectedRows` the row count a successful one reports.
     */
    method StoreUserImage(session: Option<SessionUser>, imageBase64: Option<string>, file: Option<seq<byte>>,
                          decode: string -> seq<byte>, fault: bool, affectedRows: int) returns (r: ActionReply)
      modifies this
      ensures session.None? ==> r == Unauthorized
      ensures session.Some? && ChooseImage(imageBase64, file) == NoImage ==> r == NoImageProvided
      ensures session.Some? && ChooseImage(imageBase64, file) != NoImage ==>
        r == if fault then InternalError else ImageSaved(affectedRows)
      ensures r.ImageSaved? ==> images == old(images)[session.value.id := match ChooseImage(imageBase64, file)
                                                                  case FromDataUrl(text) => decode(text)
                                                                  case FromFile(bytes) => bytes
                                                                  case NoImage => []]
      ensures !r.ImageSaved? ==> images == old(images)
      ensures follows == old(follows) && subscriptions == old(subscriptions) && donations == old(donations)
    {
      if session.None? {
        return Unauthorized;
      }
      var source := ChooseImage(imageBase64, file);
      var blob: seq<byte>;
      match source {
        case NoImage =>
          return NoImageProvided;
        case FromDataUrl(text) =>
          blob := decode(text);
        case FromFile(bytes) =>
          blob := bytes;
      }
      if fault {
        return InternalError;
      }
      images := images[session.value.id := blob];
      r := ImageSaved(affectedRows);
    }

    /** `delete_follower`: a falsy `ngoId` (absent or 0) is answered with 401. */
    method DeleteFollower(session: Option<SessionUser>, ngoId: Option<int>, fault: bool) returns (r: ActionReply)
      modifies this
      ensures session.None? ==> r == Crashed
      ensures session.Some? && (ngoId.None? || ngoId == Some(0)) ==> r == Unauthorized
      ensures session.Some? && ngoId.Some? && ngoId != Some(0) ==>
        r == if fault then InternalError else Done("Unfollow successful")
      ensures r.Done? ==> follows == Unfollowed(old(follows), session.value.id, ngoId.value)
      ensures !r.Done? ==> follows == old(follows)
      ensures images == old(images) && subscriptions == old(subscriptions) && donations == old(donations)
    {
      if session.None? {
        return Crashed;
      }
      if ngoId.None? || ngoId == Some(0) {
        return Unauthorized;
      }
      if fault {
        return InternalError;
      }
      follows := Unfollowed(follows, session.value.id, ngoId.value);
      r := Done("Unfollow successful");
    }

    /** `delete_user_subscr`: the matching subscriptions are marked 'canceled', not removed. */
    method DeleteUserSubscription(session: Option<SessionUser>, ngoId: Option<int>, fault: bool) returns (r: ActionReply)
      modifies this
      ensures session.None? ==> r == Crashed
      ensures session.Some? && (ngoId.None? || ngoId == Some(0)) ==> r == Unauthorized
      ensures session.Some? && ngoId.Some? && ngoId != Some(0) ==>
        r == if fault then InternalError else Done("Unsubscribe successful")
      ensures r.Done? ==> subscriptions == Canceled(old(subscriptions), session.value.id, ngoId.value)
      ensures !r.Done? ==> subscriptions == old(subscriptions)
      ensures images == old(images) && follows == old(follows) && donations == old(donations)
    {
      if session.None? {
        return Crashed;
      }
      if ngoId.None? || ngoId == Some(0) {
        return Unauthorized;
      }
      if fault {
        return InternalError;
      }
      subscriptions := Canceled(subscriptions, session.value.id, ngoId.value);
      r := Done("Unsubscribe successful");
    }

    /**
     * `add_donate`: the session id is read before the session check, so a
     * missing session throws there and the 401 branch is never reached.
     */
    method AddDonate(session: Option<SessionUser>, ngoId: Option<int>, amount: Option<string>, fault: bool)
      returns (r: ActionReply)
      modifies this
      ensures r != Unauthorized
      ensures session.None? <==> r == Crashed
      ensures session.Some? ==> r == if fault then InternalError else Done("Donate successful")
      ensures r.Done? ==> donations == old(donations) + [Donation(session.value.id, ngoId, amount)]
      ensures !r.Done? ==> donations == old(donations)
      ensures images == old(images) && follows == old(follows) && subscriptions == old(subscriptions)
    {
      if session.None? {
        return Crashed;
      }
      var userId := session.value.id;
      if fault {
        return InternalError;
      }
      donations := donations + [Donation(userId, ngoId, amount)];
      r := Done("Donate successful");
    }
  }

  /** Unfollowing twice removes no more than unfollowing once. */
  lemma {:induction false} UnfollowIdempotent(follows: seq<Follow>, userId: int, ngoId: int)
    ensures Unfollowed(Unfollowed(follows, userId, ngoId), userId, ngoId) == Unfollowed(follows, userId, ngoId)
  {
    if follows != [] {
      UnfollowIdempotent(follows[1..], userId, ngoId);
      var rest := Unfollowed(follows[1..], userId, ngoId);
      if follows[0] != Follow(userId, ngoId) {
        assert Unfollowed(follows, userId, ngoId) == [follows[0]] + rest;
        assert Unfollowed(follows, userId, ngoId)[1..] == rest;
      } else {
        assert Unfollowed(follows, userId, ngoId) == rest;
      }
    }
  }

  /** Unfollowing keeps every other user's follows and this user's other follows, in order. */
  lemma {:induction false} UnfollowKeepsOthers(follows: seq<Follow>, userId: int, ngoId: int, other: Follow)
    requires other != Follow(userId, ngoId)
    ensures multiset(Unfollowed(follows, userId, ngoId))[other] == multiset(follows)[other]
  {
    if follows != [] {
      UnfollowKeepsOthers(follows[1..], userId, ngoId, other);
      assert follows == [follows[0]] + follows[1..];
    }
  }
}
