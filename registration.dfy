/**
 * The registration screen: a form of name, email and password, validated and
 * appended to the list of known users, which is written to device storage.
 */
module Registration {
  import opened Wrappers
  import opened Ui

  datatype User = User(name: string, email: string, password: string)

  /** `users.find((u) => u.email === email)`: the first user with exactly this email. */
  function FindByEmail(users: seq<User>, email: string): (r: Option<User>)
    ensures r.None? <==> forall u :: u in users ==> u.email != email
    ensures r.Some? ==> exists i :: 0 <= i < |users| && users[i] == r.value && r.value.email == email
                                    && forall j :: 0 <= j < i ==> users[j].email != email
  {
    if |users| == 0 then None
    else if users[0].email == email then Some(users[0])
    else
      var r := FindByEmail(users[1..], email);
      assert forall u :: u in users ==> u == users[0] || u in users[1..];
      assert r.Some? ==> exists i :: 0 <= i < |users[1..]| && users[1..][i] == r.value && r.value.email == email
                                     && (forall j :: 0 <= j < i ==> users[1..][j].email != email)
                                     && users[i + 1] == r.value && (forall j :: 0 <= j < i + 1 ==> users[j].email != email);
      r
  }

  /** No two users share an email. */
  predicate UniqueEmails(users: seq<User>) {
    forall i, j :: 0 <= i < j < |users| ==> users[i].email != users[j].email
  }

  /** The outcome of the two checks in `handleRegister`. */
  datatype Verdict = MissingFields | EmailTaken | Accepted(updated: seq<User>)

  function Judge(users: seq<User>, name: string, email: string, password: string): (v: Verdict)
    ensures v == MissingFields <==> name == "" || email == "" || password == ""
    ensures v == EmailTaken <==> name != "" && email != "" && password != ""
                                 && exists u :: u in users && u.email == email
    ensures v.Accepted? ==> v.updated == users + [User(name, email, password)]
  {
    if name == "" || email == "" || password == "" then MissingFields
    else if FindByEmail(users, email).Some? then EmailTaken
    else Accepted(users + [User(name, email, password)])
  }

  /** An accepted registration adds one user at the end and keeps every earlier one. */
  lemma AcceptedAppends(users: seq<User>, name: string, email: string, password: string)
    requires Judge(users, name, email, password).Accepted?
    ensures var updated := Judge(users, name, email, password).updated;
      |updated| == |users| + 1 && updated[..|users|] == users && updated[|users|].email == email
  {
  }

  /** Registration never lets a second account have an email already in use. */
  lemma AcceptedKeepsEmailsUnique(users: seq<User>, name: string, email: string, password: string)
    requires UniqueEmails(users)
    requires Judge(users, name, email, password).Accepted?
    ensures UniqueEmails(Judge(users, name, email, password).updated)
  {
    var updated := users + [User(name, email, password)];
    forall i, j | 0 <= i < j < |updated|
      ensures updated[i].email != updated[j].email
    {
      if j == |users| {
        assert updated[i] in users;
      }
    }
  }

  const MissingAlert := Alert("Error", "All fields are mandatory!")
  const TakenAlert := Alert("User Exists", "This email is already registered!")
  const SuccessAlert := Alert("Success", "Account created successfully!")
  const SaveFailedAlert := Alert("Error", "Failed to save user. Try again.")

  datatype Input = NameField | EmailField | PasswordField

  class RegisterScreen {
    var name: string
    var email: string
    var password: string
    var users: seq<User>
    /** The success alert is on screen, waiting for its OK. */
    var awaitingOk: bool

    constructor ()
      ensures name == "" && email == "" && password == "" && users == [] && !awaitingOk
    {
      name, email, password, users, awaitingOk := "", "", "", [], false;
    }

    /**
     * The load on mount. `stored` is the parsed `@users` entry, or `None` when
     * the entry is absent, empty or could not be read.
     */
    method LoadStored(stored: Option<seq<User>>)
      modifies this`users
      ensures users == if stored.Some? then stored.value else old(users)
    {
      if stored.Some? {
        users := stored.value;
      }
    }

    /** `onChangeText` of one of the three inputs. */
    method Type(input: Input, text: string)
      modifies this`name, this`email, this`password
      ensures name == (if input == NameField then text else old(name))
      ensures email == (if input == EmailField then text else old(email))
      ensures password == (if input == PasswordField then text else old(password))
    {
      match input
      case NameField => name := text;
      case EmailField => email := text;
      case PasswordField => password := text;
    }

    /**
     * `handleRegister`. `saved` says whether the storage write of the
     * extended list succeeded; it is only consulted once both checks pass.
     */
    method HandleRegister(saved: bool) returns (alert: Alert)
      modifies this`users, this`awaitingOk
      ensures var v := Judge(old(users), name, email, password);
        match v
        case MissingFields => alert == MissingAlert && users == old(users) && awaitingOk == old(awaitingOk)
        case EmailTaken => alert == TakenAlert && users == old(users) && awaitingOk == old(awaitingOk)
        case Accepted(updated) =>
          if saved then alert == SuccessAlert && users == updated && awaitingOk
          else alert == SaveFailedAlert && users == old(users) && awaitingOk == old(awaitingOk)
    {
      if name == "" || email == "" || password == "" {
        return MissingAlert;
      }
      var existing := FindByEmail(users, email);
      if existing.Some? {
        return TakenAlert;
      }
      var updatedUsers := users + [User(name, email, password)];
      if saved {
        users := updatedUsers;
        awaitingOk := true;
        alert := SuccessAlert;
      } else {
        alert := SaveFailedAlert;
      }
    }

    /** The OK of the success alert: clear the form and go to the login screen. */
    method ConfirmSuccess() returns (nav: Navigation)
      requires awaitingOk
      modifies this`name, this`email, this`password, this`awaitingOk
      ensures name == "" && email == "" && password == "" && !awaitingOk
      ensures nav == Push("/login", map[])
    {
      name, email, password, awaitingOk := "", "", "", false;
      nav := Push("/login", map[]);
    }
  }
}
