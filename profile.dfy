/**
 * The profile page of users and NGOs: it shows the fetched profile, opens
 * and closes its sections, and lets a user unfollow an NGO or cancel a
 * subscription without fetching the profile again.
 */
module Profile {
  import opened Wrappers
  import Sections
  import Lists

  /** A followed NGO; only its id matters to the page's logic. */
  datatype Following = Following(ngoId: int, columns: map<string, string>)

  /** A subscription as listed; only its NGO id and status matter. */
  datatype Subscription = Subscription(ngoId: int, status: string, columns: map<string, string>)

  /**
   * The fetched profile: the type of its `user` object (absent when there is
   * no object or no type), its lists (absent when missing from the body),
   * and its image.
   */
  datatype ProfileInfo = ProfileInfo(
    userType: Option<string>, followings: Option<seq<Following>>,
    subscriptions: Option<seq<Subscription>>, image: Option<string>)

  /** `user.type || "NGO"`: a missing or empty type counts as an NGO. */
  function EffectiveType(info: ProfileInfo): (t: string)
    ensures info.userType.Some? && info.userType.value != "" ==> t == info.userType.value
    ensures !(info.userType.Some? && info.userType.value != "") ==> t == "NGO"
  {
    if info.userType.Some? && info.userType.value != "" then info.userType.value else "NGO"
  }

  /** The two static section lists. */
  datatype SectionSet = UserSections | NgoSections

  /** Only type "user" selects the user sections; every other type, missing included, the NGO ones. */
  function SectionsFor(info: ProfileInfo): (s: SectionSet)
    ensures s == UserSections <==> info.userType == Some("user")
  {
    if EffectiveType(info) == "user" then UserSections else NgoSections
  }

  /** The Unsubscribe button: section 1, a user profile, and a subscription not yet canceled. */
  predicate ShowsUnsubscribe(info: ProfileInfo, sectionIndex: int, item: Subscription) {
    sectionIndex == 1 && EffectiveType(info) == "user" && item.status != "canceled"
  }

  function OtherNgo(ngoId: int): Following -> bool {
    (f: Following) => f.ngoId != ngoId
  }

  /** `(prev.followings || []).filter(f => f.ngo_id !== ngoId)`: the others, in their order. */
  function Unfollowed(followings: seq<Following>, ngoId: int): (r: seq<Following>)
    ensures forall f :: f in r <==> f in followings && f.ngoId != ngoId
    ensures forall f :: multiset(r)[f] == if f.ngoId != ngoId then multiset(followings)[f] else 0
    ensures Lists.IsSubsequence(r, followings)
  {
    Lists.FilterIsSubsequence(followings, OtherNgo(ngoId));
    Lists.Filter(followings, OtherNgo(ngoId))
  }

  /** The subscriptions with that NGO id marked 'canceled'; none is removed. */
  function Canceled(subs: seq<Subscription>, ngoId: int): (r: seq<Subscription>)
    ensures |r| == |subs|
    ensures forall i :: 0 <= i < |r| ==> r[i].(status := subs[i].status) == subs[i]
    ensures forall i :: 0 <= i < |r| && subs[i].ngoId == ngoId ==> r[i].status == "canceled"
    ensures forall i :: 0 <= i < |r| && subs[i].ngoId != ngoId ==> r[i] == subs[i]
  {
    if subs == [] then []
    else [if subs[0].ngoId == ngoId then subs[0].(status := "canceled") else subs[0]] + Canceled(subs[1..], ngoId)
  }

  /** After canceling, no subscription of that NGO offers the Unsubscribe button. */
  lemma CanceledHidesUnsubscribe(info: ProfileInfo, subs: seq<Subscription>, ngoId: int)
    ensures forall i :: 0 <= i < |subs| && subs[i].ngoId == ngoId ==> !ShowsUnsubscribe(info, 1, Canceled(subs, ngoId)[i])
  {
  }

  /** How a request ended: a response with its `ok` flag, or a network failure. */
  datatype Outcome = Responded(ok: bool) | NetworkError

  class ProfilePage {
    var openSections: seq<int>
    var info: Option<ProfileInfo>  // `PersonalInfo`; none while loading

    constructor ()
      ensures openSections == [] && info.None?
    {
      openSections := [];
      info := None;
    }

    /** The profile request: any parsed body, whatever the status, becomes the page's data. */
    method Load(body: Option<ProfileInfo>)
      modifies this
      ensures body.Some? ==> info == body
      ensures body.None? ==> info == old(info)
      ensures openSections == old(openSections)
    {
      if body.Some? {
        info := body;
      }
    }

    method ToggleSection(index: int)
      modifies this
      ensures openSections == Sections.Toggled(old(openSections), index)
      ensures info == old(info)
    {
      openSections := Sections.Toggled(openSections, index);
    }

    /** `handleUnfollow`: only an ok response removes the followings of that NGO. */
    method HandleUnfollow(ngoId: int, outcome: Outcome)
      requires info.Some?
      modifies this
      ensures outcome == Responded(true) ==>
        info == Some(old(info.value).(followings := Some(Unfollowed(old(info.value).followings.GetOr([]), ngoId))))
      ensures outcome != Responded(true) ==> info == old(info)
      ensures openSections == old(openSections)
    {
      if outcome == Responded(true) {
        var prev := info.value;
        info := Some(prev.(followings := Some(Unfollowed(prev.followings.GetOr([]), ngoId))));
      }
    }

    /** `handleUnsubscribe`: whatever the response, the subscriptions of that NGO are marked canceled. */
    method HandleUnsubscribe(ngoId: int, outcome: Outcome)
      requires info.Some?
      modifies this
      ensures outcome.Responded? ==>
        info == Some(old(info.value).(subscriptions := Some(Canceled(old(info.value).subscriptions.GetOr([]), ngoId))))
      ensures outcome.NetworkError? ==> info == old(info)
      ensures openSections == old(openSections)
    {
      if outcome.Responded? {
        var prev := info.value;
        info := Some(prev.(subscriptions := Some(Canceled(prev.subscriptions.GetOr([]), ngoId))));
      }
    }

    /** A successful upload shows the uploaded data URL as the image. */
    method ImageUploaded(dataUrl: string, outcome: Outcome)
      requires info.Some?
      modifies this
      ensures outcome == Responded(true) ==> info == Some(old(info.value).(image := Some(dataUrl)))
      ensures outcome != Responded(true) ==> info == old(info)
      ensures openSections == old(openSections)
    {
      if outcome == Responded(true) {
        info := Some(info.value.(image := Some(dataUrl)));
      }
    }
  }
}
