/**
 * The settings hook: a profile, notification switches, connected bank
 * accounts and display preferences, seeded with fallback data and
 * overwritten by whatever the settings service returns.
 */
module SettingsHook {
  import opened Js

  const ProfileKeys: set<string> := {"firstName", "lastName", "email", "phone", "bio", "photoUrl"}

  const FallbackProfile: Record := map[
    "firstName" := Str("Srinivasa"),
    "lastName" := Str("Reddy"),
    "email" := Str("srinivasa@example.com"),
    "phone" := Str("+91 98765 43210"),
    "bio" := Str("Computer Science student passionate about personal finance and building useful applications."),
    "photoUrl" := Null]

  const FallbackNotifications: Record := map[
    "email" := Bool(true), "push" := Bool(false), "weekly" := Bool(true),
    "monthly" := Bool(true), "goals" := Bool(true)]

  const FallbackPreferences: Record := map[
    "currency" := Str("INR"), "dateFormat" := Str("DD/MM/YYYY"),
    "timezone" := Str("Asia/Kolkata"), "darkMode" := Bool(false)]

  /** A linked account; only its `_id` is ever inspected, the other keys ride along. */
  datatype ConnectedAccount = ConnectedAccount(docId: Option<Value>, fields: Record)

  const FallbackAccounts: seq<ConnectedAccount> := [
    ConnectedAccount(Some(Str("1")), map["name" := Str("HDFC Bank Checking"), "last4" := Str("4532"),
      "type" := Str("checking"), "connected" := Bool(true)]),
    ConnectedAccount(Some(Str("2")), map["name" := Str("ICICI Bank Savings"), "last4" := Str("8721"),
      "type" := Str("savings"), "connected" := Bool(true)]),
    ConnectedAccount(Some(Str("3")), map["name" := Str("SBI Credit Card"), "last4" := Str("1928"),
      "type" := Str("credit"), "connected" := Bool(true)])]

  /** The user profile as served: its own keys plus optional nested settings objects. */
  datatype ProfileData = ProfileData(fields: Record, preferences: Option<Record>, notifications: Option<Record>)

  /** The connected-accounts response body. */
  datatype AccountsData = AccountsData(accounts: Option<seq<ConnectedAccount>>)

  /** The reply of a hook action: `{success: true, data}` or `{success: false, error}`. */
  datatype Reply<+T> = Succeeded(data: T) | Failed(error: Option<string>)

  /** The six-key profile built from a fetched one, falling back key by key. */
  function MergedProfile(fetched: Record): (r: Record)
  {
    map k | k in ProfileKeys :: ValueOr(Get(fetched, k), FallbackProfile[k])
  }

  /** The merged profile has exactly the six profile keys; each holds the fetched
      value when that is truthy and the fallback value otherwise. */
  lemma MergedProfileFields(fetched: Record)
    ensures MergedProfile(fetched).Keys == ProfileKeys
    ensures forall k :: k in ProfileKeys && k in fetched && Truthy(fetched[k]) ==> MergedProfile(fetched)[k] == fetched[k]
    ensures forall k :: k in ProfileKeys && !(k in fetched && Truthy(fetched[k])) ==>
      MergedProfile(fetched)[k] == FallbackProfile[k]
  {
  }

  /** An empty or all-falsy profile response yields the fallback profile, and
      the fallback itself is a fixed point of the merge. */
  lemma MergeFallsBackEntirely(fetched: Record)
    requires forall k :: k in fetched ==> !Truthy(fetched[k])
    ensures MergedProfile(fetched) == FallbackProfile
    ensures MergedProfile(FallbackProfile) == FallbackProfile
  {
    MergedProfileFields(fetched);
    MergedProfileFields(FallbackProfile);
    var a := MergedProfile(fetched);
    assert a.Keys == FallbackProfile.Keys;
    assert forall k :: k in a ==> a[k] == FallbackProfile[k];
    var b := MergedProfile(FallbackProfile);
    assert b.Keys == FallbackProfile.Keys;
    assert forall k :: k in b ==> b[k] == FallbackProfile[k] by {
      assert FallbackProfile["photoUrl"] == Null;
    }
  }

  /** `prev.filter(acc => acc._id !== accountId)` */
  function WithoutAccount(accounts: seq<ConnectedAccount>, accountId: Value): (r: seq<ConnectedAccount>)
    ensures |r| <= |accounts|
    ensures forall a :: a in r <==> a in accounts && a.docId != Some(accountId)
  {
    if accounts == [] then []
    else if accounts[0].docId != Some(accountId) then [accounts[0]] + WithoutAccount(accounts[1..], accountId)
    else WithoutAccount(accounts[1..], accountId)
  }

  /** The filter works piecewise, so the kept accounts stay in their order. */
  lemma {:induction false} WithoutAccountAppend(xs: seq<ConnectedAccount>, ys: seq<ConnectedAccount>, accountId: Value)
    ensures WithoutAccount(xs + ys, accountId) == WithoutAccount(xs, accountId) + WithoutAccount(ys, accountId)
  {
    if xs == [] {
      assert xs + ys == ys;
    } else {
      assert (xs + ys)[0] == xs[0] && (xs + ys)[1..] == xs[1..] + ys;
      WithoutAccountAppend(xs[1..], ys, accountId);
    }
  }

  /** Removing an id no account carries changes nothing. */
  lemma {:induction false} WithoutAbsentAccount(accounts: seq<ConnectedAccount>, accountId: Value)
    requires forall k :: 0 <= k < |accounts| ==> accounts[k].docId != Some(accountId)
    ensures WithoutAccount(accounts, accountId) == accounts
  {
    if accounts != [] {
      WithoutAbsentAccount(accounts[1..], accountId);
      assert [accounts[0]] + accounts[1..] == accounts;
    }
  }

  /** A second disconnect of the same id changes nothing. */
  lemma WithoutAccountIdempotent(accounts: seq<ConnectedAccount>, accountId: Value)
    ensures WithoutAccount(WithoutAccount(accounts, accountId), accountId) == WithoutAccount(accounts, accountId)
  {
    var once := WithoutAccount(accounts, accountId);
    assert forall k :: 0 <= k < |once| ==> once[k] in once;
    WithoutAbsentAccount(once, accountId);
  }

  /** `{...prev, ...updated}` */
  function MergedRecord(prev: Record, updated: Record): (r: Record)
    ensures r.Keys == prev.Keys + updated.Keys
    ensures forall k :: k in updated ==> r[k] == updated[k]
    ensures forall k :: k in prev && k !in updated ==> r[k] == prev[k]
  {
    prev + updated
  }

  /** `{...prev, photoUrl}`; an undefined `photoUrl` reads as a missing key. */
  function WithPhoto(prev: Record, photoUrl: Option<Value>): (r: Record)
    ensures Get(r, "photoUrl") == photoUrl
    ensures forall k :: k != "photoUrl" ==> Get(r, k) == Get(prev, k)
  {
    if photoUrl.Some? then prev + map["photoUrl" := photoUrl.value] else prev - {"photoUrl"}
  }

  class SettingsState {
    var loading: bool
    var error: Option<string>
    var profile: Record
    var notifications: Record
    var connectedAccounts: seq<ConnectedAccount>
    var preferences: Record

    /** The state before the first fetch settles: all fallback data. */
    constructor ()
      ensures loading && error == None
      ensures profile == FallbackProfile && notifications == FallbackNotifications
      ensures connectedAccounts == FallbackAccounts && preferences == FallbackPreferences
    {
      loading := true;
      error := None;
      profile := FallbackProfile;
      notifications := FallbackNotifications;
      connectedAccounts := FallbackAccounts;
      preferences := FallbackPreferences;
    }

    /**
     * `fetchSettings`, given how the two parallel requests settled. A failed
     * or empty response leaves its part of the state as it was.
     */
    method FetchSettings(profileResponse: Settled<Option<ProfileData>>, accountsResponse: Settled<Option<AccountsData>>)
      modifies this
      ensures !loading && error == None
      ensures profileResponse.Fulfilled? && profileResponse.value.Some? ==>
        var data := profileResponse.value.value;
        profile == MergedProfile(data.fields) &&
        preferences == (if data.preferences.Some? then data.preferences.value else old(preferences)) &&
        notifications == (if data.notifications.Some? then data.notifications.value else old(notifications))
      ensures !(profileResponse.Fulfilled? && profileResponse.value.Some?) ==>
        profile == old(profile) && preferences == old(preferences) && notifications == old(notifications)
      ensures accountsResponse.Fulfilled? && accountsResponse.value.Some? && accountsResponse.value.value.accounts.Some? ==>
        connectedAccounts == accountsResponse.value.value.accounts.value
      ensures !(accountsResponse.Fulfilled? && accountsResponse.value.Some? && accountsResponse.value.value.accounts.Some?) ==>
        connectedAccounts == old(connectedAccounts)
    {
      loading := true;
      error := None;
      ApplyProfile(profileResponse);
      ApplyAccounts(accountsResponse);
      loading := false;
    }

    /** The profile request's part of `fetchSettings`: the merged profile, and the
        nested preferences and notifications where the profile carries them. */
    method ApplyProfile(response: Settled<Option<ProfileData>>)
      modifies this
      ensures response.Fulfilled? && response.value.Some? ==>
        var data := response.value.value;
        profile == MergedProfile(data.fields) &&
        preferences == (if data.preferences.Some? then data.preferences.value else old(preferences)) &&
        notifications == (if data.notifications.Some? then data.notifications.value else old(notifications))
      ensures !(response.Fulfilled? && response.value.Some?) ==>
        profile == old(profile) && preferences == old(preferences) && notifications == old(notifications)
      ensures connectedAccounts == old(connectedAccounts) && loading == old(loading) && error == old(error)
    {
      if response.Fulfilled? && response.value.Some? {
        var data := response.value.value;
        var merged := MergedProfile(data.fields);
        var prefs := if data.preferences.Some? then data.preferences.value else preferences;
        var notes := if data.notifications.Some? then data.notifications.value else notifications;
        profile, preferences, notifications := merged, prefs, notes;
      }
    }

    /** The accounts request's part of `fetchSettings`: a listed array replaces the accounts. */
    method ApplyAccounts(response: Settled<Option<AccountsData>>)
      modifies this
      ensures response.Fulfilled? && response.value.Some? && response.value.value.accounts.Some? ==>
        connectedAccounts == response.value.value.accounts.value
      ensures !(response.Fulfilled? && response.value.Some? && response.value.value.accounts.Some?) ==>
        connectedAccounts == old(connectedAccounts)
      ensures profile == old(profile) && preferences == old(preferences) && notifications == old(notifications)
      ensures loading == old(loading) && error == old(error)
    {
      if response.Fulfilled? && response.value.Some? && response.value.value.accounts.Some? {
        connectedAccounts := response.value.value.accounts.value;
      }
    }

    /** `updateProfile`: the server's answer is merged over the current profile. */
    method UpdateProfile(outcome: Outcome<Record>) returns (reply: Reply<Record>)
      modifies this
      ensures outcome.Resolved? ==> profile == MergedRecord(old(profile), outcome.value) && reply == Succeeded(outcome.value)
      ensures outcome.Threw? ==> profile == old(profile) && reply == Failed(outcome.message)
      ensures notifications == old(notifications) && preferences == old(preferences)
      ensures connectedAccounts == old(connectedAccounts) && loading == old(loading) && error == old(error)
    {
      match outcome {
        case Resolved(updated) =>
          profile := MergedRecord(profile, updated);
          reply := Succeeded(updated);
        case Threw(message) =>
          reply := Failed(message);
      }
    }

    /** `updateNotifications`: the server's settings on success, the requested ones otherwise. */
    method UpdateNotifications(requested: Record, outcome: Outcome<Record>) returns (reply: Reply<Record>)
      modifies this
      ensures outcome.Resolved? ==> notifications == outcome.value && reply == Succeeded(outcome.value)
      ensures outcome.Threw? ==> notifications == requested && reply == Failed(outcome.message)
      ensures profile == old(profile) && preferences == old(preferences)
      ensures connectedAccounts == old(connectedAccounts) && loading == old(loading) && error == old(error)
    {
      match outcome {
        case Resolved(updated) =>
          notifications := updated;
          reply := Succeeded(updated);
        case Threw(message) =>
          notifications := requested;
          reply := Failed(message);
      }
    }

    /** `updatePreferences`: the same optimistic rule as for notifications. */
    method UpdatePreferences(requested: Record, outcome: Outcome<Record>) returns (reply: Reply<Record>)
      modifies this
      ensures outcome.Resolved? ==> preferences == outcome.value && reply == Succeeded(outcome.value)
      ensures outcome.Threw? ==> preferences == requested && reply == Failed(outcome.message)
      ensures profile == old(profile) && notifications == old(notifications)
      ensures connectedAccounts == old(connectedAccounts) && loading == old(loading) && error == old(error)
    {
      match outcome {
        case Resolved(updated) =>
          preferences := updated;
          reply := Succeeded(updated);
        case Threw(message) =>
          preferences := requested;
          reply := Failed(message);
      }
    }

    /** `disconnectAccount`: on success the accounts with that `_id` go. */
    method DisconnectAccount(accountId: Value, outcome: Outcome<()>) returns (reply: Reply<()>)
      modifies this
      ensures outcome.Resolved? ==> connectedAccounts == WithoutAccount(old(connectedAccounts), accountId) && reply == Succeeded(())
      ensures outcome.Threw? ==> connectedAccounts == old(connectedAccounts) && reply == Failed(outcome.message)
      ensures profile == old(profile) && notifications == old(notifications)
      ensures preferences == old(preferences) && loading == old(loading) && error == old(error)
    {
      match outcome {
        case Resolved(_) =>
          connectedAccounts := WithoutAccount(connectedAccounts, accountId);
          reply := Succeeded(());
        case Threw(message) =>
          reply := Failed(message);
      }
    }

    /** `uploadPhoto`: success replaces `photoUrl` with the upload result's and
        nothing else, and the reply carries the whole result. */
    method UploadPhoto(outcome: Outcome<Record>) returns (reply: Reply<Record>)
      modifies this
      ensures outcome.Resolved? ==>
        profile == WithPhoto(old(profile), Get(outcome.value, "photoUrl")) && reply == Succeeded(outcome.value)
      ensures outcome.Threw? ==> profile == old(profile) && reply == Failed(outcome.message)
      ensures notifications == old(notifications) && preferences == old(preferences)
      ensures connectedAccounts == old(connectedAccounts) && loading == old(loading) && error == old(error)
    {
      match outcome {
        case Resolved(result) =>
          profile := WithPhoto(profile, Get(result, "photoUrl"));
          reply := Succeeded(result);
        case Threw(message) =>
          reply := Failed(message);
      }
    }
  }
}
