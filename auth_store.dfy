/** The session store (`src/store/authStore.js`): the signed-in user, mirrored into the `user`
    storage entry, and the transitions that sign in, sign out and edit the profile. Each request
    to the auth backend is replaced by its outcome, passed in by the caller. */
module AuthStore {
  import opened Common

  /** What the `user` storage entry holds: the serialisation of a user record, or any other
      text, one `JSON.parse` rejects (such as the `"undefined"` a missing user leaves behind). */
  datatype Entry = Serialized(user: Record) | Text(raw: string)

  /** What `getUserFromStorage()` produces: the user read, and whether it removed the entry. */
  datatype Read = Read(user: Option<Record>, cleared: bool)

  /** Texts that mean "no user" without being an error: `!storedUser`, `"undefined"`, `"null"`. */
  predicate Blank(raw: string) {
    raw == "" || raw == "undefined" || raw == "null"
  }

  /** `getUserFromStorage()`: an absent or blank entry is no user; a serialised user is read back;
      any other text is corrupt, so the entry is removed and there is no user. */
  function ReadStored(e: Option<Entry>): (r: Read)
    ensures r.user.Some? <==> e.Some? && e.value.Serialized?
    ensures r.user.Some? ==> r.user.value == e.value.user
    ensures r.cleared <==> e.Some? && e.value.Text? && !Blank(e.value.raw)
  {
    match e
    case None => Read(None, false)
    case Some(Serialized(u)) => Read(Some(u), false)
    case Some(Text(raw)) => if Blank(raw) then Read(None, false) else Read(None, true)
  }

  /** The entry left behind by `getUserFromStorage()`. */
  function AfterRead(e: Option<Entry>): Option<Entry> {
    if ReadStored(e).cleared then None else e
  }

  /** Reading is stable: a second read of what the first left behind finds the same user and
      removes nothing. */
  lemma ReadIsStable(e: Option<Entry>)
    ensures ReadStored(AfterRead(e)) == Read(ReadStored(e).user, false)
    ensures AfterRead(AfterRead(e)) == AfterRead(e)
  {
  }

  /** `{ ...base, ...updates }`: every key of either, the update's value winning. A missing base
      (`getUserFromStorage()` returned null) spreads nothing. */
  function Merge(base: Option<Record>, updates: Record): (r: Record)
    ensures r.Keys == base.GetOr(map[]).Keys + updates.Keys
    ensures forall k :: k in updates ==> r[k] == updates[k]
    ensures forall k :: k in base.GetOr(map[]) && k !in updates ==> r[k] == base.value[k]
  {
    base.GetOr(map[]) + updates
  }

  /** `error.response?.data?.message || fallback`. */
  function MessageOr(message: Option<string>, fallback: string): (r: string)
    ensures Truthy(message) ==> r == message.value
    ensures !Truthy(message) ==> r == fallback
  {
    if Truthy(message) then message.value else fallback
  }

  /** The outcome of a signup or login request: the server answered with a body whose `user`
      field may be missing, or the request failed with an error body that may carry a message. */
  datatype AuthResponse = Answered(user: Option<Record>) | Rejected(message: Option<string>)

  /** The outcome of an update request: the server answered with a body whose `user` field may be
      missing, or the request failed. */
  datatype UpdateResponse = Updated(user: Option<Record>) | UpdateFailed

  /** What the store's actions return: `{ success: true }` or `{ success: false, message }`. */
  datatype Outcome = Success | Failure(message: string)

  /** The message a failed signup or login reports: the server's, or the fallback when the request
      did not fail but carried no user (`new Error(...)` has no `response`). */
  function FailureMessage(response: AuthResponse, fallback: string): string {
    match response
    case Answered(_) => fallback
    case Rejected(m) => MessageOr(m, fallback)
  }

  class Store {
    var user: Option<Record>
    /** The `user` storage entry; `None` while the key is absent. */
    var stored: Option<Entry>

    /** The user in memory is the one a fresh read of storage would produce, and that read would
        remove nothing. The constructor establishes it and every transition keeps it. */
    predicate Consistent()
      reads this
    {
      ReadStored(stored) == Read(user, false)
    }

    /** Creating the store: `user: getUserFromStorage()`. */
    constructor (initial: Option<Entry>)
      ensures user == ReadStored(initial).user
      ensures stored == AfterRead(initial)
      ensures Consistent()
    {
      user := ReadStored(initial).user;
      stored := AfterRead(initial);
      ReadIsStable(initial);
    }

    /** `setUserData(u)`: the user, in memory and in storage. */
    method SetUserData(u: Record)
      modifies this
      ensures user == Some(u) && stored == Some(Serialized(u))
      ensures Consistent()
    {
      user := Some(u);
      stored := Some(Serialized(u));
    }

    /** The common body of `signup` and `login`: on an answer with a user, that user is stored;
        otherwise the failure is reported and nothing changes. */
    method SignIn(response: AuthResponse, fallback: string) returns (o: Outcome)
      modifies this
      ensures old(Consistent()) ==> Consistent()
      ensures response.Answered? && response.user.Some? ==>
                o == Success && user == response.user && stored == Some(Serialized(response.user.value)) && Consistent()
      ensures !(response.Answered? && response.user.Some?) ==>
                o == Failure(FailureMessage(response, fallback)) && user == old(user) && stored == old(stored)
    {
      if response.Answered? && response.user.Some? {
        SetUserData(response.user.value);
        o := Success;
      } else {
        o := Failure(FailureMessage(response, fallback));
      }
    }

    /** `signup(...)`, with "Signup failed" when the server gives no message. */
    method Signup(response: AuthResponse) returns (o: Outcome)
      modifies this
      ensures old(Consistent()) ==> Consistent()
      ensures response.Answered? && response.user.Some? ==>
                o == Success && user == response.user && stored == Some(Serialized(response.user.value)) && Consistent()
      ensures !(response.Answered? && response.user.Some?) ==>
                o == Failure(FailureMessage(response, "Signup failed")) && user == old(user) && stored == old(stored)
    {
      o := SignIn(response, "Signup failed");
    }

    /** `login(...)`, with "Login failed" when the server gives no message. */
    method Login(response: AuthResponse) returns (o: Outcome)
      modifies this
      ensures old(Consistent()) ==> Consistent()
      ensures response.Answered? && response.user.Some? ==>
                o == Success && user == response.user && stored == Some(Serialized(response.user.value)) && Consistent()
      ensures !(response.Answered? && response.user.Some?) ==>
                o == Failure(FailureMessage(response, "Login failed")) && user == old(user) && stored == old(stored)
    {
      o := SignIn(response, "Login failed");
    }

    /** `logout()`: the entry is removed and the user forgotten. */
    method Logout()
      modifies this
      ensures user == None && stored == None
      ensures Consistent()
    {
      stored := None;
      user := None;
    }

    /** `updateProfile(userId, updates)`: the user the server returns, or else the stored user
        with the updates laid over it; a failed request reports "Update failed" and changes
        nothing. The merge reads storage, not the user in memory. */
    method UpdateProfile(updates: Record, response: UpdateResponse) returns (o: Outcome)
      modifies this
      ensures old(Consistent()) ==> Consistent()
      ensures response.UpdateFailed? ==> o == Failure("Update failed") && user == old(user) && stored == old(stored)
      ensures response.Updated? ==> o == Success && Consistent()
      ensures response.Updated? && response.user.Some? ==> user == response.user
      ensures response.Updated? && response.user.None? ==> user == Some(Merge(ReadStored(old(stored)).user, updates))
      ensures response.Updated? ==> stored == Some(Serialized(user.value))
    {
      match response
      case UpdateFailed =>
        o := Failure("Update failed");
      case Updated(returned) =>
        var next: Record;
        if returned.Some? {
          next := returned.value;
        } else {
          var read := ReadStored(stored);
          stored := AfterRead(stored);
          next := Merge(read.user, updates);
        }
        SetUserData(next);
        o := Success;
    }
  }
}
