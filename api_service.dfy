/** The API client: the checks it applies to backend responses, the mapping
    of listed projects, and the simulated account and billing calls that
    keep one user record in browser storage. The storage slot is one
    optional record; the network, the delays and the console are outside
    the model, and a response enters as its status, status text and body. */
module ApiService {
  import opened Wrappers
  import opened Strings
  import opened Types

  // ------------------------------------------------------------ responses

  predicate IsOk(status: int) {
    200 <= status <= 299
  }

  /** The shared pattern of the backend calls: a non-ok response becomes
      an error carrying the call's message and the status text, an ok
      one its body. */
  function Checked<T>(failure: string, status: int, statusText: string, body: T): (r: Result<T>)
    ensures r.Ok? <==> IsOk(status)
    ensures r.Ok? ==> r.value == body
    ensures r.Err? ==> r.message == failure + ": " + statusText
  {
    if !IsOk(status) then Err(failure + ": " + statusText) else Ok(body)
  }

  const UploadFailure := "Upload failed"
  const StatusFailure := "Failed to get status"
  const AgentsFailure := "Failed to get agents"
  const ProjectsFailure := "Failed to list projects"
  const HealthFailure := "Health check failed"

  /** `getCurrentEstimate`: 404 means nothing is being processed. */
  function CurrentEstimate<T>(status: int, statusText: string, body: T): (r: Result<Option<T>>)
    ensures r == Ok(None) <==> status == 404
    ensures r.Err? <==> status != 404 && !IsOk(status)
    ensures r.Err? ==> r.message == "Failed to get estimate: " + statusText
    ensures r.Ok? && r.value.Some? ==> IsOk(status) && r.value.value == body
  {
    if status == 404 then Ok(None)
    else if !IsOk(status) then Err("Failed to get estimate: " + statusText)
    else Ok(Some(body))
  }

  /** One entry of the project listing. */
  datatype ListedProject = ListedProject(name: string, path: string, files: seq<string>)

  /** The project records `fetchProjects` builds; the dates are left out. */
  datatype ProjectSummary = ProjectSummary(id: string, name: string, description: string, nodes: seq<NeuralNode>)

  const FilesSuffix := " files"

  function Summary(p: ListedProject): ProjectSummary {
    ProjectSummary(p.name, p.name, NatToString(|p.files|) + FilesSuffix, [])
  }

  /** `fetchProjects` on an ok listing: one project per listed entry, in order. */
  function FetchProjects(listing: Result<seq<ListedProject>>): (r: Result<seq<ProjectSummary>>)
    ensures r.Ok? <==> listing.Ok?
    ensures r.Err? ==> r == Err(listing.message)
    ensures r.Ok? ==> (|r.value| == |listing.value| &&
      forall k :: 0 <= k < |r.value| ==>
        r.value[k].id == listing.value[k].name && r.value[k].name == listing.value[k].name && r.value[k].nodes == [])
  {
    match listing
    case Err(m) => Err(m)
    case Ok(ps) => Ok(seq(|ps|, k requires 0 <= k < |ps| => Summary(ps[k])))
  }

  /** The description states the file count: its digits before ` files`
      read back as exactly the number of files listed. */
  lemma DescriptionCountsFiles(p: ListedProject)
    ensures var d := Summary(p).description;
      EndsWith(d, FilesSuffix) &&
      AllDigits(d[..|d| - |FilesSuffix|]) && DigitsValue(d[..|d| - |FilesSuffix|]) == |p.files|
  {
    var digits := NatToString(|p.files|);
    var d := digits + FilesSuffix;
    assert d[..|d| - |FilesSuffix|] == digits;
    assert d[|d| - |FilesSuffix|..] == FilesSuffix;
    NatToStringRoundTrip(|p.files|);
  }

  // ---------------------------------------------------------- stored user

  /** A number after a JSON round trip: absent, `null` (what `NaN` becomes)
      or a number. */
  datatype JsonNumber = Missing | JsonNull | Number(n: int)

  /** `undefined + 1000` is NaN, stored as null; `null + 1000` is 1000. */
  function AddCredits(c: JsonNumber, amount: int): (r: JsonNumber)
    ensures c.Number? ==> r == Number(c.n + amount)
    ensures c.JsonNull? ==> r == Number(amount)
    ensures c.Missing? ==> r == JsonNull
  {
    match c
    case Missing => JsonNull
    case JsonNull => Number(amount)
    case Number(n) => Number(n + amount)
  }

  /** The parsed `mockUser` record. A record written by the billing call on
      an empty slot has no id or email, so every field may be absent. */
  datatype StoredUser = StoredUser(
    id: Option<string>,
    email: Option<string>,
    isSubscribed: Option<bool>,
    tier: Option<Tier>,
    credits: JsonNumber)

  function TierFor(premium: bool): Tier {
    if premium then PREMIUM else BASIC
  }

  function CreditsFor(premium: bool): int {
    if premium then 1000 else 100
  }

  /** The user record written for a fresh account. */
  function FreshUser(email: string, premium: bool, randomId: string): StoredUser {
    StoredUser(Some("user_" + randomId), Some(email), Some(premium), Some(TierFor(premium)), Number(CreditsFor(premium)))
  }

  /** A complete stored record, seen as a `User`. */
  predicate IsComplete(u: StoredUser) {
    u.id.Some? && u.email.Some? && u.isSubscribed.Some? && u.tier.Some? && u.credits.Number?
  }

  function AsUser(u: StoredUser): User
    requires IsComplete(u)
  {
    User(u.id.value, u.email.value, u.isSubscribed.value, u.tier.value, u.credits.n)
  }

  /** The record `authenticate` stores and returns. */
  function Authenticated(stored: Option<StoredUser>, email: string, premium: bool, randomId: string): (u: StoredUser)
    ensures u.email == Some(email) && u.isSubscribed == Some(premium)
    ensures u.tier == Some(TierFor(premium)) && u.credits == Number(CreditsFor(premium))
    ensures stored.Some? && stored.value.email == Some(email) ==> u.id == stored.value.id
    ensures !(stored.Some? && stored.value.email == Some(email)) ==> u == FreshUser(email, premium, randomId)
  {
    if stored.Some? && stored.value.email == Some(email) then
      stored.value.(isSubscribed := Some(premium), tier := Some(TierFor(premium)), credits := Number(CreditsFor(premium)))
    else FreshUser(email, premium, randomId)
  }

  /** The record `createStripeSession` stores: the stored one, or `{}`,
      upgraded to premium with a thousand more credits. */
  function Upgraded(stored: Option<StoredUser>): (u: StoredUser)
    ensures u.isSubscribed == Some(true) && u.tier == Some(PREMIUM)
    ensures stored.Some? ==> u.id == stored.value.id && u.email == stored.value.email && u.credits == AddCredits(stored.value.credits, 1000)
    ensures stored.None? ==> u == StoredUser(None, None, Some(true), Some(PREMIUM), JsonNull)
  {
    var base := if stored.Some? then stored.value else StoredUser(None, None, None, None, Missing);
    base.(isSubscribed := Some(true), tier := Some(PREMIUM), credits := AddCredits(base.credits, 1000))
  }

  /** What `syncSubscriptionStatus` reports. */
  datatype Subscription = Subscription(isSubscribed: Option<bool>, tier: Option<Tier>, credits: JsonNumber)

  function SubscriptionOf(stored: Option<StoredUser>): (s: Subscription)
    ensures stored.None? ==> s == Subscription(Some(false), Some(BASIC), Number(0))
    ensures stored.Some? ==> s.isSubscribed == stored.value.isSubscribed && s.tier == stored.value.tier && s.credits == stored.value.credits
  {
    match stored
    case None => Subscription(Some(false), Some(BASIC), Number(0))
    case Some(u) => Subscription(u.isSubscribed, u.tier, u.credits)
  }

  /** Signing in again with the stored email keeps the account's id and
      resets its plan and credits to what was asked for. */
  lemma ReauthenticateKeepsAccount(u: StoredUser, premium: bool, randomId: string)
    requires IsComplete(u)
    ensures var v := Authenticated(Some(u), u.email.value, premium, randomId);
      IsComplete(v) && AsUser(v).id == AsUser(u).id && AsUser(v).email == AsUser(u).email &&
      AsUser(v).isSubscribed == premium && AsUser(v).credits == CreditsFor(premium) &&
      (AsUser(v).tier == PREMIUM <==> AsUser(v).isSubscribed)
  {
  }

  /** An upgrade on an empty slot stores a record without an email, so the
      next sign-in, whatever the email, creates a fresh basic-or-premium
      account rather than keeping the upgrade. */
  lemma UpgradeOnEmptySlotIsForgotten(email: string, premium: bool, randomId: string)
    ensures Authenticated(Some(Upgraded(None)), email, premium, randomId) == FreshUser(email, premium, randomId)
  {
  }

  /** Two upgrades on an empty slot: the first stores null credits (NaN),
      the second counts from zero. */
  lemma DoubleUpgradeFromEmpty()
    ensures Upgraded(None).credits == JsonNull
    ensures Upgraded(Some(Upgraded(None))).credits == Number(1000)
  {
  }

  /** The browser storage slot and the calls that use it. */
  class MockAccountStore {
    var stored: Option<StoredUser>

    constructor (initial: Option<StoredUser>)
      ensures stored == initial
    {
      stored := initial;
    }

    /** `authenticate`: the returned user is exactly what is now stored. */
    method Authenticate(email: string, premium: bool, randomId: string) returns (u: StoredUser)
      modifies this
      ensures u == Authenticated(old(stored), email, premium, randomId)
      ensures stored == Some(u)
    {
      var mockUser: Option<StoredUser> := None;
      if stored.Some? {
        mockUser := stored;
        if mockUser.value.email != Some(email) {
          mockUser := None;
        }
      }
      if mockUser.None? {
        u := StoredUser(Some("user_" + randomId), Some(email), Some(premium), Some(TierFor(premium)), Number(CreditsFor(premium)));
      } else {
        u := mockUser.value;
        u := u.(isSubscribed := Some(premium));
        u := u.(tier := Some(if premium then PREMIUM else BASIC));
        u := u.(credits := Number(if premium then 1000 else 100));
      }
      stored := Some(u);
    }

    method SignOut()
      modifies this
      ensures stored.None?
    {
      stored := None;
    }

    /** `createStripeSession`: the upgrade is applied to the stored record
        (or to `{}`), and the success URL is returned. */
    method CreateStripeSession(origin: string) returns (url: string)
      modifies this
      ensures stored == Some(Upgraded(old(stored)))
      ensures url == origin + "/premium-success"
    {
      var mockUser := if stored.Some? then stored.value else StoredUser(None, None, None, None, Missing);
      mockUser := mockUser.(isSubscribed := Some(true));
      mockUser := mockUser.(tier := Some(PREMIUM));
      mockUser := mockUser.(credits := AddCredits(mockUser.credits, 1000));
      stored := Some(mockUser);
      url := origin + "/premium-success";
    }

    /** `syncSubscriptionStatus` reads the slot and changes nothing. */
    method SyncSubscriptionStatus() returns (s: Subscription)
      ensures s == SubscriptionOf(stored)
    {
      if stored.Some? {
        var u := stored.value;
        return Subscription(u.isSubscribed, u.tier, u.credits);
      }
      return Subscription(Some(false), Some(BASIC), Number(0));
    }
  }

  /** A sign-in followed by a status sync reports the plan just chosen;
      after signing out it reports the basic defaults. */
  method SignInThenSync(email: string, randomId: string) returns (signedIn: Subscription, signedOut: Subscription)
    ensures signedIn == Subscription(Some(true), Some(PREMIUM), Number(1000))
    ensures signedOut == Subscription(Some(false), Some(BASIC), Number(0))
  {
    var store := new MockAccountStore(None);
    var u := store.Authenticate(email, true, randomId);
    signedIn := store.SyncSubscriptionStatus();
    store.SignOut();
    signedOut := store.SyncSubscriptionStatus();
  }
}
