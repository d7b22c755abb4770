/**
 * The sign-in / sign-up form: registration checks, the account list kept in
 * `localStorage` under `users`, and login by e-mail and password.
 */
module Auth {
  import opened Text
  import opened Optional
  import opened Session
  import Lists

  /** Why a registration is refused, in the order the form checks. */
  datatype Rejection = MissingField | PasswordMismatch | PasswordTooShort | EmailTaken

  /** The shortest password the form accepts, in UTF-16 code units. */
  const MinPasswordLength := 6

  /** The avatar every new account starts with. */
  const DefaultAvatar: JsString := Lit("https://cdn.poehali.dev/files/b4dd4c30-699b-4f6f-a2d2-927daeee8639.png")

  const MissingFieldText: JsString := Lit("Все поля обязательны для заполнения")
  const PasswordMismatchText: JsString := Lit("Пароли не совпадают")
  const PasswordTooShortText: JsString := Lit("Пароль должен содержать минимум 6 символов")
  const EmailTakenText: JsString := Lit("Пользователь с таким email уже существует")
  const RegisteredText: JsString := Lit("Регистрация успешна! Теперь можете войти")
  const LoginMissingText: JsString := Lit("Введите email и пароль")
  const WrongCredentialsText: JsString := Lit("Неверный email или пароль")
  const LoggedInText: JsString := Lit("Вход выполнен успешно!")

  /** The error line shown for a refused registration. */
  function RejectionText(r: Rejection): JsString {
    match r
    case MissingField => MissingFieldText
    case PasswordMismatch => PasswordMismatchText
    case PasswordTooShort => PasswordTooShortText
    case EmailTaken => EmailTakenText
  }

  /**
   * The checks of `handleRegister`, first failing one first: an empty field
   * (the confirmation is not checked on its own), differing passwords, a
   * password shorter than six units, an e-mail some account already has.
   */
  function RegistrationCheck(users: seq<User>, email: JsString, username: JsString,
                             displayName: JsString, password: JsString, confirm: JsString): (r: Option<Rejection>)
    ensures r.None? <==>
            && email != [] && username != [] && displayName != [] && password != []
            && password == confirm && |password| >= MinPasswordLength
            && forall u | u in users :: u.email != email
    ensures r == Some(MissingField) <==> email == [] || username == [] || displayName == [] || password == []
    ensures r == Some(PasswordMismatch) ==> password != confirm
    ensures r == Some(PasswordTooShort) ==> password == confirm && |password| < MinPasswordLength
    ensures r == Some(EmailTaken) <==>
            && email != [] && username != [] && displayName != [] && password != []
            && password == confirm && |password| >= MinPasswordLength
            && exists u | u in users :: u.email == email
  {
    if email == [] || username == [] || displayName == [] || password == [] then Some(MissingField)
    else if password != confirm then Some(PasswordMismatch)
    else if |password| < MinPasswordLength then Some(PasswordTooShort)
    else if exists u | u in users :: u.email == email then Some(EmailTaken)
    else None
  }

  /** The account `handleRegister` creates; its id is `Date.now().toString()`. */
  function NewUser(now: nat, email: JsString, username: JsString, displayName: JsString,
                   password: JsString): (u: User)
    ensures forall i | 0 <= i < |u.id| :: IsDigit(u.id[i])
    ensures DigitsValue(u.id) == now && u.createdAt == now
    ensures u.email == email && u.password == password && u.avatar == DefaultAvatar
  {
    User(Decimal(now), email, username, displayName, password, DefaultAvatar, now)
  }

  /** What a login attempt comes to. */
  datatype LoginOutcome = LoginMissingField | WrongCredentials | LoggedIn(user: User)

  /** `handleLogin`'s decision: both fields are required, then an account with both must exist. */
  function LoginCheck(users: seq<User>, email: JsString, password: JsString): (r: LoginOutcome)
    ensures r.LoginMissingField? <==> email == [] || password == []
    ensures r.WrongCredentials? <==>
            email != [] && password != [] && forall u | u in users :: u.email != email || u.password != password
    ensures r.LoggedIn? ==> r.user in users && r.user.email == email && r.user.password == password
    ensures r.LoggedIn? ==>
              exists i | 0 <= i < |users| ::
                && users[i] == r.user
                && forall j | 0 <= j < i :: users[j].email != email || users[j].password != password
  {
    if email == [] || password == [] then LoginMissingField
    else
      match Lists.Find(users, (u: User) => u.email == email && u.password == password)
      case None => WrongCredentials
      case Some(u) => LoggedIn(u)
  }

  /** Appending an account whose e-mail no account has keeps e-mail addresses unique. */
  lemma AppendKeepsEmailsDistinct(users: seq<User>, u: User)
    requires EmailsDistinct(users)
    requires forall v | v in users :: v.email != u.email
    ensures EmailsDistinct(users + [u])
  {
    var all := users + [u];
    forall i, j | 0 <= i < j < |all|
      ensures all[i].email != all[j].email
    {
      if j == |users| {
        assert all[i] in users;
      } else {
        assert all[i] == users[i] && all[j] == users[j];
      }
    }
  }

  /** A successful registration keeps e-mail addresses unique. */
  lemma RegistrationKeepsEmailsDistinct(users: seq<User>, now: nat, email: JsString, username: JsString,
                                        displayName: JsString, password: JsString, confirm: JsString)
    requires EmailsDistinct(users)
    requires RegistrationCheck(users, email, username, displayName, password, confirm).None?
    ensures EmailsDistinct(users + [NewUser(now, email, username, displayName, password)])
  {
    AppendKeepsEmailsDistinct(users, NewUser(now, email, username, displayName, password));
  }

  /** Right after registering, logging in with the same e-mail and password yields the new account. */
  lemma RegisterThenLogin(users: seq<User>, now: nat, email: JsString, username: JsString,
                          displayName: JsString, password: JsString, confirm: JsString)
    requires RegistrationCheck(users, email, username, displayName, password, confirm).None?
    ensures LoginCheck(users + [NewUser(now, email, username, displayName, password)], email, password)
            == LoggedIn(NewUser(now, email, username, displayName, password))
  {
    var nu := NewUser(now, email, username, displayName, password);
    var r := LoginCheck(users + [nu], email, password);
    assert nu in users + [nu];
    assert r.LoggedIn?;
    assert r.user in users + [nu];
  }

  /** With unique e-mails, a wrong password for an existing account never logs in. */
  lemma WrongPasswordRefused(users: seq<User>, i: nat, password: JsString)
    requires EmailsDistinct(users)
    requires i < |users| && users[i].email != [] && password != []
    requires users[i].password != password
    ensures LoginCheck(users, users[i].email, password) == WrongCredentials
  {
    forall u | u in users
      ensures u.email != users[i].email || u.password != password
    {
      var j :| 0 <= j < |users| && users[j] == u;
      if j != i {
        assert users[j].email != users[i].email by {
          if j < i { assert users[j].email != users[i].email; } else { assert users[i].email != users[j].email; }
        }
      }
    }
  }

  /** The form's state; `storage` is the page's `localStorage`. */
  class AuthSystem {
    const storage: LocalStorage
    var users: seq<User>
    var loginEmail: JsString
    var loginPassword: JsString
    var registerEmail: JsString
    var registerUsername: JsString
    var registerDisplayName: JsString
    var registerPassword: JsString
    var registerConfirmPassword: JsString
    var error: JsString
    var success: JsString

    /** The in-memory account list is what is stored under `users`. */
    predicate Synced()
      reads this, storage
    {
      users == SavedUsers(storage.items)
    }

    /** The verdict the sign-up inputs would get against the current accounts. */
    function PendingRegistration(): Option<Rejection>
      reads this
    {
      RegistrationCheck(users, registerEmail, registerUsername, registerDisplayName,
                        registerPassword, registerConfirmPassword)
    }

    /** Mounting reads the saved account list; every input starts empty. */
    constructor (storage: LocalStorage)
      ensures this.storage == storage && Synced()
      ensures loginEmail == [] && loginPassword == [] && registerEmail == [] && registerUsername == []
      ensures registerDisplayName == [] && registerPassword == [] && registerConfirmPassword == []
      ensures error == [] && success == []
    {
      this.storage := storage;
      users := SavedUsers(storage.items);
      loginEmail, loginPassword := [], [];
      registerEmail, registerUsername, registerDisplayName := [], [], [];
      registerPassword, registerConfirmPassword := [], [];
      error, success := [], [];
    }

    /**
     * `handleRegister`. A refused registration shows its error and changes
     * nothing else; an accepted one appends the account, stores the whole
     * list, shows the success line and clears the five sign-up inputs.
     * `now` is the `Date.now()` reading.
     */
    method HandleRegister(now: nat)
      modifies this, storage
      ensures old(PendingRegistration()).Some? ==>
                && users == old(users) && storage.items == old(storage.items)
                && error == RejectionText(old(PendingRegistration()).value) && success == []
                && registerEmail == old(registerEmail) && registerUsername == old(registerUsername)
                && registerDisplayName == old(registerDisplayName) && registerPassword == old(registerPassword)
                && registerConfirmPassword == old(registerConfirmPassword)
      ensures old(PendingRegistration()).None? ==>
                && users == old(users) + [NewUser(now, old(registerEmail), old(registerUsername),
                                                  old(registerDisplayName), old(registerPassword))]
                && storage.items == old(storage.items)[UsersKey := UserList(users)]
                && error == [] && success == RegisteredText
                && registerEmail == [] && registerUsername == [] && registerDisplayName == []
                && registerPassword == [] && registerConfirmPassword == []
      ensures error == [] || success == []
      ensures loginEmail == old(loginEmail) && loginPassword == old(loginPassword)
      ensures old(Synced()) ==> Synced()
      ensures EmailsDistinct(old(users)) ==> EmailsDistinct(users)
    {
      var rejection := RegistrationCheck(users, registerEmail, registerUsername, registerDisplayName,
                                         registerPassword, registerConfirmPassword);
      if rejection.Some? {
        error, success := RejectionText(rejection.value), [];
      } else {
        AddAccount(now);
      }
    }

    /** The accepted branch of `handleRegister`: append, store, report and clear the sign-up inputs. */
    method AddAccount(now: nat)
      requires forall u | u in users :: u.email != registerEmail
      modifies this, storage
      ensures users == old(users) + [NewUser(now, old(registerEmail), old(registerUsername),
                                             old(registerDisplayName), old(registerPassword))]
      ensures storage.items == old(storage.items)[UsersKey := UserList(users)]
      ensures error == [] && success == RegisteredText
      ensures registerEmail == [] && registerUsername == [] && registerDisplayName == []
      ensures registerPassword == [] && registerConfirmPassword == []
      ensures loginEmail == old(loginEmail) && loginPassword == old(loginPassword)
      ensures old(Synced()) ==> Synced()
      ensures EmailsDistinct(old(users)) ==> EmailsDistinct(users)
    {
      var newUser := NewUser(now, registerEmail, registerUsername, registerDisplayName, registerPassword);
      var updatedUsers := users + [newUser];
      assert EmailsDistinct(users) ==> EmailsDistinct(updatedUsers) by {
        if EmailsDistinct(users) {
          AppendKeepsEmailsDistinct(users, newUser);
        }
      }
      storage.SetItem(UsersKey, UserList(updatedUsers));
      users, error, success := updatedUsers, [], RegisteredText;
      registerEmail, registerUsername, registerDisplayName, registerPassword, registerConfirmPassword := [], [], [], [], [];
    }

    /**
     * `handleLogin`. On success the account is stored under `currentUser`
     * and returned for the page's `onLogin`; otherwise only the error line
     * changes.
     */
    method HandleLogin() returns (loggedIn: Option<User>)
      modifies this, storage
      ensures var check := LoginCheck(old(users), old(loginEmail), old(loginPassword));
              if check.LoggedIn? then
                && loggedIn == Some(check.user)
                && storage.items == old(storage.items)[CurrentUserKey := OneUser(check.user)]
                && error == [] && success == LoggedInText
              else
                && loggedIn == None && storage.items == old(storage.items) && success == []
                && error == (if check.LoginMissingField? then LoginMissingText else WrongCredentialsText)
      ensures error == [] || success == []
      ensures users == old(users) && loginEmail == old(loginEmail) && loginPassword == old(loginPassword)
      ensures registerEmail == old(registerEmail) && registerUsername == old(registerUsername)
      ensures registerDisplayName == old(registerDisplayName) && registerPassword == old(registerPassword)
      ensures registerConfirmPassword == old(registerConfirmPassword)
      ensures old(Synced()) ==> Synced()
    {
      var outcome := LoginCheck(users, loginEmail, loginPassword);
      match outcome
      case LoginMissingField =>
        loggedIn, error, success := None, LoginMissingText, [];
      case WrongCredentials =>
        loggedIn, error, success := None, WrongCredentialsText, [];
      case LoggedIn(user) =>
        storage.SetItem(CurrentUserKey, OneUser(user));
        loggedIn, error, success := Some(user), [], LoggedInText;
    }
  }
}
