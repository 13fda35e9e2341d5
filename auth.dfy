/** The auth module: the current user and its listeners, the user document created on
    first sign-in, the messages shown for auth error codes, and the avatar initial. */
module Auth {

  import opened Wrappers
  import opened Json
  import opened JsString
  import opened Firestore
  import opened Listeners
  import Subscription

  /** The fields of a signed-in user the module reads. */
  datatype User = User(uid: string, displayName: Option<string>, email: Option<string>, photoURL: Option<string>)

  const DefaultDisplayName: string := "Disciple"

  /** `s || fallback` for an optional string. */
  function OrElse(s: Option<string>, fallback: string): string {
    if s.Some? && s.value != "" then s.value else fallback
  }

  /** The document `ensureUserDocument` creates for a new user (a full write). */
  function NewUserDoc(user: User, now: int): Doc {
    map[
      "displayName" := Text(OrElse(user.displayName, DefaultDisplayName)),
      "email" := (if user.email.Some? then Text(user.email.value) else Null),
      "streak" := Number(0.0),
      "supporterStatus" := Boolean(false),
      "aiRequestCount" := Number(0.0),
      "createdAt" := Timestamp(now),
      "lastActivityDate" := Timestamp(now)
    ]
  }

  /** `ensureUserDocument` on the user collection: create the document when missing,
      otherwise merge only the activity date. */
  function EnsureUserDocument(users: map<string, Doc>, user: User, now: int): map<string, Doc> {
    if user.uid !in users then users[user.uid := NewUserDoc(user, now)]
    else users[user.uid := Merge(users[user.uid], map["lastActivityDate" := Timestamp(now)])]
  }

  /** A new user starts as a named, non-supporting disciple with no streak and no AI use;
      an existing user keeps every field but the activity date; no other user changes. */
  lemma EnsureUserDocumentEffect(users: map<string, Doc>, user: User, now: int)
    ensures var after := EnsureUserDocument(users, user, now);
      && user.uid in after
      && after[user.uid]["lastActivityDate"] == Timestamp(now)
      && (forall u :: u in users && u != user.uid ==> u in after && after[u] == users[u])
      && (user.uid !in users ==>
            && after[user.uid]["displayName"] == Text(if user.displayName.Some? && user.displayName.value != "" then user.displayName.value else "Disciple")
            && after[user.uid]["streak"] == Number(0.0)
            && after[user.uid]["supporterStatus"] == Boolean(false)
            && after[user.uid]["aiRequestCount"] == Number(0.0))
      && (user.uid in users ==>
            && after[user.uid].Keys == users[user.uid].Keys + {"lastActivityDate"}
            && forall f :: f in users[user.uid] && f != "lastActivityDate" ==> after[user.uid][f] == users[user.uid][f])
  {
  }

  /** A new user has the full free quota: no subscription and three AI requests left
      today, whatever the day. */
  lemma NewUserHasFreeQuota(users: map<string, Doc>, user: User, now: int, later: int, today: string)
    requires user.uid !in users
    ensures var after := EnsureUserDocument(users, user, now);
      var status := Subscription.GetSubscriptionStatus(after, Some(user.uid), false, later, today);
      && !status.isActive && status.tier == Text("free")
      && Subscription.CheckAIUsage(after, Some(user.uid), false, later, today)
           == Subscription.Usage(true, Subscription.Finite(3.0), Subscription.RemainingToday(Subscription.Finite(3.0)))
  {
    var after := EnsureUserDocument(users, user, now);
    assert "subscriptionExpiry" !in after[user.uid];
    assert "aiUsage" !in after[user.uid];
  }

  /** `currentUser` and the `onAuthStateChanged` registry. `L` is the callback type. */
  class AuthState<L(==)> {
    var currentUser: Option<User>
    const registry: Registry<L>

    constructor()
      ensures currentUser.None? && fresh(registry) && registry.listeners == []
    {
      currentUser := None;
      registry := new Registry();
    }

    /** The Firebase auth callback: the user is recorded first, a signed-in user's document
        is ensured, then every listener is called in registration order. A store failure
        (`storeFails`) rejects the callback before any listener is called. */
    method AuthChanged(store: Store, user: Option<User>, now: int, storeFails: bool) returns (notified: seq<L>)
      modifies this, store
      ensures currentUser == user
      ensures user.Some? && !storeFails ==> store.users == EnsureUserDocument(old(store.users), user.value, now)
      ensures user.None? || storeFails ==> store.users == old(store.users)
      ensures store.payments == old(store.payments)
      ensures notified == if user.Some? && storeFails then [] else registry.listeners
    {
      currentUser := user;
      if user.Some? {
        if storeFails {
          return [];
        }
        store.users := EnsureUserDocument(store.users, user.value, now);
      }
      notified := registry.Notify();
    }
  }

  /** `getAuthErrorMessage`. */
  function AuthErrorMessage(code: string): string {
    if code == "auth/user-not-found" then "No account found with this email."
    else if code == "auth/wrong-password" then "Incorrect password."
    else if code == "auth/email-already-in-use" then "An account with this email already exists."
    else if code == "auth/weak-password" then "Password should be at least 6 characters."
    else if code == "auth/invalid-email" then "Please enter a valid email address."
    else if code == "auth/popup-closed-by-user" then "Sign-in was cancelled."
    else if code == "auth/network-request-failed" then "Network error. Please check your connection."
    else if code == "auth/too-many-requests" then "Too many attempts. Please try again later."
    else if code == "auth/invalid-credential" then "Invalid email or password."
    else DefaultErrorMessage
  }

  const DefaultErrorMessage: string := "An error occurred. Please try again."

  const KnownCodes: set<string> := {
    "auth/user-not-found", "auth/wrong-password", "auth/email-already-in-use",
    "auth/weak-password", "auth/invalid-email", "auth/popup-closed-by-user",
    "auth/network-request-failed", "auth/too-many-requests", "auth/invalid-credential"
  }

  /** Exactly the nine known codes get their own message; every other code gets the
      default, and no known code is mapped to the default. */
  lemma AuthErrorMessages(code: string)
    ensures AuthErrorMessage(code) == DefaultErrorMessage <==> code !in KnownCodes
    ensures code == "auth/wrong-password" ==> AuthErrorMessage(code) == "Incorrect password."
    ensures code == "auth/invalid-credential" ==> AuthErrorMessage(code) == "Invalid email or password."
  {
    assert |DefaultErrorMessage| == 36;
    if code in KnownCodes {
      assert AuthErrorMessage(code) != DefaultErrorMessage by {
        assert |AuthErrorMessage(code)| != 36;
      }
    }
  }

  /** The avatar of a user without a photo: the upper-cased first character of the display
      name, else of the email, else of `D`. */
  function AvatarInitial(displayName: Option<string>, email: Option<string>): (r: char)
  {
    var source := OrElse(displayName, OrElse(email, "D"));
    UpperChar(source[0])
  }

  /** The initial comes from the display name when there is one, else from the email,
      else it is `D`; a lower-case ASCII letter is capitalised. */
  lemma AvatarInitialRules(displayName: Option<string>, email: Option<string>)
    ensures displayName.Some? && displayName.value != "" ==> AvatarInitial(displayName, email) == UpperChar(displayName.value[0])
    ensures (displayName.None? || displayName.value == "") && email.Some? && email.value != "" ==>
      AvatarInitial(displayName, email) == UpperChar(email.value[0])
    ensures (displayName.None? || displayName.value == "") && (email.None? || email.value == "") ==>
      AvatarInitial(displayName, email) == 'D'
    ensures !('a' <= AvatarInitial(displayName, email) <= 'z')
  {
  }
}
