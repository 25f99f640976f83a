/**
 * The session provider: an optional signed-in user, a loading flag, and the
 * record persisted under the browser store key `savvy_user`.
 *
 * The persisted record is modelled as an optional user value; serialising it
 * to and from text is not part of this model.
 */
module AuthContext {
  import opened Wrappers
  import opened RiskCalculator

  /** A signed-in user; the risk profile is absent until an assessment is submitted. */
  datatype User = User(id: string, email: string, riskProfile: Option<RiskProfile>)

  /** The record created by a (simulated) login or signup: the given id and email, no profile. */
  function FreshUser(id: string, email: string): (u: User)
    ensures u.id == id && u.email == email
    ensures u.riskProfile == None
  {
    User(id, email, None)
  }

  /** The user record with its risk profile replaced; id and email are kept. */
  function WithRiskProfile(u: User, profile: RiskProfile): (r: User)
    ensures r.id == u.id && r.email == u.email
    ensures r.riskProfile == Some(profile)
  {
    u.(riskProfile := Some(profile))
  }

  /** Setting the profile twice keeps the last one. */
  lemma WithRiskProfileLastWins(u: User, p: RiskProfile, q: RiskProfile)
    ensures WithRiskProfile(WithRiskProfile(u, p), q) == WithRiskProfile(u, q)
  {
  }

  class Session {
    /** The signed-in user, or none. */
    var user: Option<User>
    /** True while the provider is restoring or creating a session. */
    var isLoading: bool
    /** The record persisted in the browser store, or none when the key is absent. */
    var stored: Option<User>

    /** The persisted record mirrors the current user. */
    predicate Synced()
      reads this
    {
      stored == user
    }

    /** `isAuthenticated` is the truthiness of `user`. */
    predicate IsAuthenticated()
      reads this
    {
      user.Some?
    }

    /** The provider before its mount effect ran: no user yet, loading. */
    constructor (persisted: Option<User>)
      ensures user == None && isLoading && stored == persisted
    {
      user := None;
      isLoading := true;
      stored := persisted;
    }

    /** The mount effect: adopt the stored record if there is one, then stop loading. */
    method InitialLoad()
      modifies this
      ensures old(stored).Some? ==> user == old(stored)
      ensures old(stored).None? ==> user == old(user)
      ensures stored == old(stored) && !isLoading
      ensures old(user) == None ==> Synced()
      ensures IsAuthenticated() <==> (old(stored).Some? || old(user).Some?)
    {
      if stored.Some? {
        user := stored;
      }
      isLoading := false;
    }

    /**
     * A login: any credentials succeed; `newId` stands for the random id the
     * provider generates, and the simulated network delay is not modelled.
     */
    method Login(email: string, password: string, newId: string)
      modifies this
      ensures user == Some(FreshUser(newId, email))
      ensures Synced() && IsAuthenticated() && !isLoading
    {
      isLoading := true;
      var newUser := FreshUser(newId, email);
      user := Some(newUser);
      stored := Some(newUser);
      isLoading := false;
    }

    /** A signup: behaves exactly as a login, creating a record with no profile. */
    method Signup(email: string, password: string, newId: string)
      modifies this
      ensures user == Some(FreshUser(newId, email))
      ensures Synced() && IsAuthenticated() && !isLoading
    {
      isLoading := true;
      var newUser := FreshUser(newId, email);
      user := Some(newUser);
      stored := Some(newUser);
      isLoading := false;
    }

    /** Sign out: forget the user and remove the stored record. */
    method Logout()
      modifies this
      ensures user == None && stored == None
      ensures isLoading == old(isLoading)
      ensures Synced() && !IsAuthenticated()
    {
      user := None;
      stored := None;
    }

    /** Record the assessed profile on the signed-in user; nothing happens without one. */
    method UpdateRiskProfile(profile: RiskProfile)
      modifies this
      ensures old(user).None? ==> user == old(user) && stored == old(stored)
      ensures old(user).Some? ==> user == Some(WithRiskProfile(old(user).value, profile)) && Synced()
      ensures isLoading == old(isLoading)
      ensures IsAuthenticated() == old(IsAuthenticated())
      ensures old(Synced()) ==> Synced()
    {
      if user.Some? {
        var updatedUser := WithRiskProfile(user.value, profile);
        user := Some(updatedUser);
        stored := Some(updatedUser);
      }
    }
  }
}
