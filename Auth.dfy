/** The mock authentication provider of src/contexts/AuthContext.tsx. The
    browser store is a map from key to the user record kept under it (the
    JSON encoding is not modelled); the simulated network delay is a single
    atomic step, and `Date.now()` is the `id` parameter of `Register`. */
module Auth {
  import opened Wrappers

  datatype User = User(id: string, name: string, email: string, avatar: Option<string>)

  /** The one account `login` accepts. */
  const DemoEmail := "user@example.com"
  const DemoPassword := "password"

  /** The record `login` signs in. */
  const DemoUser := User("1", "John Doe", DemoEmail,
    Some("https://images.pexels.com/photos/2379005/pexels-photo-2379005.jpeg?auto=compress&cs=tinysrgb&w=120&h=120&dpr=1"))

  /** The key under which the signed-in user is stored. */
  const UserKey := "user"

  /** The result of an operation that may throw. */
  datatype Outcome = Ok | Failed(message: string)

  predicate ValidCredentials(email: string, password: string) {
    email == DemoEmail && password == DemoPassword
  }

  class AuthState {
    var user: Option<User>
    var isLoading: bool
    var store: map<string, User>

    /** The provider as mounted: nobody signed in, over the browser's store. */
    constructor (store: map<string, User>)
      ensures user.None? && !isLoading && this.store == store
    {
      user := None;
      isLoading := false;
      this.store := store;
    }

    /** `isAuthenticated: !!user`. */
    predicate IsAuthenticated()
      reads this
    {
      user.Some?
    }

    /** A signed-in user is the one stored under `user`. */
    predicate Consistent()
      reads this
    {
      user.Some? ==> UserKey in store && store[UserKey] == user.value
    }

    /** `checkAuth`: adopt the stored user if there is one. */
    method CheckAuth()
      modifies this
      ensures UserKey in store ==> user == Some(store[UserKey])
      ensures UserKey !in store ==> user == old(user)
      ensures store == old(store) && isLoading == old(isLoading)
      ensures old(Consistent()) ==> Consistent()
    {
      if UserKey in store {
        user := Some(store[UserKey]);
      }
    }

    /** `login`: only the demo credentials succeed; they sign in and store
        the demo record. Any other pair fails and changes nothing but the
        loading flag, which is false afterwards either way. */
    method Login(email: string, password: string) returns (outcome: Outcome)
      modifies this
      ensures ValidCredentials(email, password) ==>
        outcome == Ok && user == Some(DemoUser) && store == old(store)[UserKey := DemoUser]
      ensures !ValidCredentials(email, password) ==>
        outcome == Failed("Invalid email or password") && user == old(user) && store == old(store)
      ensures !isLoading
      ensures IsAuthenticated() <==> ValidCredentials(email, password) || old(IsAuthenticated())
      ensures old(Consistent()) ==> Consistent()
    {
      isLoading := true;
      if email == DemoEmail && password == DemoPassword {
        store := store[UserKey := DemoUser];
        user := Some(DemoUser);
        outcome := Ok;
      } else {
        outcome := Failed("Invalid email or password");
      }
      isLoading := false;
    }

    /** `register`: signs in a new record with the given name and email, no
        avatar, and the given id; the password is not used. */
    method Register(name: string, email: string, password: string, id: string) returns (outcome: Outcome)
      modifies this
      ensures outcome == Ok
      ensures user == Some(User(id, name, email, None)) && store == old(store)[UserKey := User(id, name, email, None)]
      ensures !isLoading && Consistent()
    {
      isLoading := true;
      var userData := User(id, name, email, None);
      store := store[UserKey := userData];
      user := Some(userData);
      isLoading := false;
      outcome := Ok;
    }

    /** `logout`: forget the stored user and sign out. */
    method Logout()
      modifies this
      ensures user.None? && store == old(store) - {UserKey} && isLoading == old(isLoading)
      ensures !IsAuthenticated() && Consistent()
    {
      store := store - {UserKey};
      user := None;
    }
  }
}
