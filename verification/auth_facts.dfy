/** Properties of the auth slice: what the two flags track, and where the
    admin flag can fall behind the user's role. */
module AuthFacts {
  import opened Common
  import opened Users
  import opened Auth

  // ---------------------------------------------------------------------
  // Merging a payload

  /** An empty payload changes nothing. */
  lemma ApplyEmptyPatch(u: User)
    ensures ApplyPatch(u, EmptyPatch) == u
  {
  }

  /** Merging the same payload twice is merging it once. */
  lemma ApplyPatchIdempotent(u: User, p: UserPatch)
    ensures ApplyPatch(ApplyPatch(u, p), p) == ApplyPatch(u, p)
  {
  }

  /** Two merges in a row are one merge of the spread payloads. */
  lemma ApplyPatchComposes(u: User, first: UserPatch, second: UserPatch)
    ensures ApplyPatch(ApplyPatch(u, first), second) == ApplyPatch(u, MergePatches(first, second))
  {
  }

  /** The merge changes the user exactly when the payload carries some
      field with a value different from the current one. */
  lemma ApplyPatchChanges(u: User, p: UserPatch)
    ensures ApplyPatch(u, p) != u <==>
      || (p.id.Some? && p.id.value != u.id)
      || (p.firstName.Some? && p.firstName.value != u.firstName)
      || (p.lastName.Some? && p.lastName.value != u.lastName)
      || (p.email.Some? && p.email.value != u.email)
      || (p.password.Some? && p.password.value != u.password)
      || (p.role.Some? && p.role.value != u.role)
      || (p.address.Some? && p.address.value != u.address)
      || (p.createdAt.Some? && p.createdAt.value != u.createdAt)
  {
  }

  // ---------------------------------------------------------------------
  // The flags

  /** Signed in exactly when there is a user; admin only when signed in. */
  predicate FlagsConsistent(s: AuthState)
  {
    && (s.isAuthenticated <==> s.user.Some?)
    && (s.isAdmin ==> s.isAuthenticated)
  }

  /** The admin flag matches the current user's role. */
  predicate AdminAgrees(s: AuthState)
  {
    s.isAdmin == (s.user.Some? && s.user.value.role == "admin")
  }

  lemma ReduceKeepsFlagsConsistent(s: AuthState, a: AuthAction)
    requires FlagsConsistent(s)
    ensures FlagsConsistent(Reduce(s, a))
  {
  }

  lemma {:induction false} RunKeepsFlagsConsistent(s: AuthState, actions: seq<AuthAction>)
    requires FlagsConsistent(s)
    ensures FlagsConsistent(Run(s, actions))
    decreases |actions|
  {
    if |actions| > 0 {
      ReduceKeepsFlagsConsistent(s, actions[0]);
      RunKeepsFlagsConsistent(Reduce(s, actions[0]), actions[1..]);
    }
  }

  /** From the initial state, any sequence of sign-ins, sign-outs and
      updates leaves the flags consistent with the user. */
  lemma ReachableFlagsConsistent(actions: seq<AuthAction>)
    ensures FlagsConsistent(Run(InitialAuth, actions))
  {
    RunKeepsFlagsConsistent(InitialAuth, actions);
  }

  /** Signing out restores the initial state, and doing it twice is doing
      it once. */
  lemma LogoutResets(s: AuthState)
    ensures Logout(s) == InitialAuth
    ensures Logout(Logout(s)) == Logout(s)
    ensures FlagsConsistent(Logout(s)) && AdminAgrees(Logout(s))
  {
  }

  /** Signing in makes the admin flag agree with the role. */
  lemma LoginAgrees(s: AuthState, u: User)
    ensures AdminAgrees(Login(s, u)) && FlagsConsistent(Login(s, u))
  {
  }

  /** An update keeps the admin flag in agreement exactly when nobody is
      signed in, or the payload leaves the role alone, or it sets a role
      on the same side of "admin" as before. */
  lemma UpdateUserAgreement(s: AuthState, p: UserPatch)
    requires AdminAgrees(s)
    ensures AdminAgrees(UpdateUser(s, p)) <==>
      || s.user.None?
      || p.role.None?
      || ((p.role.value == "admin") == (s.user.value.role == "admin"))
  {
  }

  /** An update that changes the role across "admin" leaves the flag
      stale: a user promoted to admin is not flagged as admin, and an admin
      demoted to user keeps the admin flag until signing in again. */
  lemma UpdateUserCanLeaveAdminStale(u: User, p: UserPatch)
    requires p.role.Some? && (p.role.value == "admin") != (u.role == "admin")
    ensures var s := Run(InitialAuth, [LogIn(u), Update(p)]);
      && s.user.Some? && s.user.value.role == p.role.value
      && s.isAdmin == (u.role == "admin")
      && !AdminAgrees(s)
  {
    var actions := [LogIn(u), Update(p)];
    var s1 := Login(InitialAuth, u);
    assert actions[1..] == [Update(p)];
    assert Run(InitialAuth, actions) == Run(s1, [Update(p)]);
    assert Run(s1, [Update(p)]) == Run(UpdateUser(s1, p), []);
  }

  /** Role-preserving updates never break the agreement. */
  predicate KeepsRole(a: AuthAction)
  {
    a.Update? ==> a.patch.role.None?
  }

  lemma {:induction false} RunKeepsAdminAgreement(s: AuthState, actions: seq<AuthAction>)
    requires AdminAgrees(s)
    requires forall i :: 0 <= i < |actions| ==> KeepsRole(actions[i])
    ensures AdminAgrees(Run(s, actions))
    decreases |actions|
  {
    if |actions| > 0 {
      var s1 := Reduce(s, actions[0]);
      assert AdminAgrees(s1);
      RunKeepsAdminAgreement(s1, actions[1..]);
    }
  }
}
