/** The users page: six state cells and the handlers that change them. Each
    handler is one atomic step; the network call it makes is represented by
    the `outcome` parameter, the response the server gives to that call, and
    the request it issues is returned so that callers can see whether and
    with what arguments the server was called. */
module Pages {
  import opened UserRecords
  import opened UsersApi

  /** The page's whole state as one value. */
  datatype PageState = PageState(
    users: seq<User>,
    newUserName: string,
    newUserEmail: string,
    selectedUserId: Option<int>,
    updatedName: string,
    updatedEmail: string)

  /** The guard of the update handler, under JavaScript truthiness: the id
      must be present and non-zero, both strings non-empty. `null`, 0 and the
      empty string are falsy; every other number, negative ones included, is
      truthy. */
  function UpdateGuard(selectedUserId: Option<int>, updatedName: string, updatedEmail: string): (ok: bool)
    ensures selectedUserId == None || selectedUserId == Some(0) ==> !ok
    ensures updatedName == "" || updatedEmail == "" ==> !ok
    ensures selectedUserId.Some? && selectedUserId.value < 0 && updatedName != "" && updatedEmail != "" ==> ok
  {
    selectedUserId.Some? && selectedUserId.value != 0 && updatedName != "" && updatedEmail != ""
  }

  class UsersPage {
    var users: seq<User>
    var newUserName: string
    var newUserEmail: string
    var selectedUserId: Option<int>
    var updatedName: string
    var updatedEmail: string

    ghost function State(): PageState
      reads this
    {
      PageState(users, newUserName, newUserEmail, selectedUserId, updatedName, updatedEmail)
    }

    /** The update popup is shown whenever an id is selected, zero included.
        Whenever the update guard lets a call through, the popup is shown; the
        converse fails for id 0. */
    function PopupOpen(): (open: bool)
      reads this
      ensures UpdateGuard(selectedUserId, updatedName, updatedEmail) ==> open
      ensures selectedUserId == Some(0) ==> open
      ensures selectedUserId == None ==> !open
    {
      selectedUserId != None
    }

    /** The page as first rendered: no records, empty forms, no selection. */
    constructor ()
      ensures State() == PageState([], "", "", None, "", "")
      ensures !PopupOpen()
    {
      users := [];
      newUserName, newUserEmail := "", "";
      selectedUserId := None;
      updatedName, updatedEmail := "", "";
    }

    /** The fetch made on mount: a successful list replaces the records, a
        failure leaves the page as it was. */
    method FetchUsers(outcome: Outcome<seq<User>>)
      modifies this
      ensures outcome.Success? ==> State() == old(State()).(users := outcome.value)
      ensures outcome.Failure? ==> State() == old(State())
    {
      if outcome.Success? {
        users := outcome.value;
      }
    }

    /** Delete `userId` on the server; on success drop every local record with
        that id, keeping the others in order. Nothing else changes. */
    method HandleDeleteUser(userId: int, outcome: Done) returns (call: Request)
      modifies this
      ensures call == DeleteUser(userId)
      ensures outcome.Success? ==> State() == old(State()).(users := WithoutId(old(users), userId))
      ensures outcome.Success? ==> CountId(users, userId) == 0
      ensures outcome.Failure? ==> State() == old(State())
    {
      call := DeleteUser(userId);
      if outcome.Success? {
        users := WithoutId(users, userId);
      }
    }

    /** Send the create form; on success append the server's record and clear
        the form, on failure leave everything, the form included, as it was. */
    method HandleCreateUser(outcome: Outcome<User>) returns (call: Request)
      modifies this
      ensures call == CreateUser(UserData(old(newUserName), old(newUserEmail)))
      ensures outcome.Success? ==>
        State() == old(State()).(users := old(users) + [outcome.value], newUserName := "", newUserEmail := "")
      ensures outcome.Success? ==> CountId(users, outcome.value.id) == CountId(old(users), outcome.value.id) + 1
      ensures outcome.Failure? ==> State() == old(State())
    {
      call := CreateUser(UserData(newUserName, newUserEmail));
      if outcome.Success? {
        AppendedCountsOnce(users, outcome.value);
        users := users + [outcome.value];
        newUserName := "";
        newUserEmail := "";
      }
    }

    /** Send the update form when the guard holds; otherwise make no call and
        change nothing. On success rewrite the name and email of every record
        with the selected id and close the popup; on failure change nothing. */
    method HandleUpdateUser(outcome: Done) returns (call: Option<Request>)
      modifies this
      ensures call.Some? <==> UpdateGuard(old(selectedUserId), old(updatedName), old(updatedEmail))
      ensures call.Some? ==>
        call.value == UpdateUser(old(selectedUserId).value, UserData(old(updatedName), old(updatedEmail)))
      ensures call.None? || outcome.Failure? ==> State() == old(State())
      ensures call.Some? && outcome.Success? ==>
        State() == old(State()).(
          users := WithUpdatedContact(old(users), old(selectedUserId).value, old(updatedName), old(updatedEmail)),
          selectedUserId := None, updatedName := "", updatedEmail := "")
      ensures call.Some? && outcome.Success? ==> !PopupOpen()
    {
      call := None;
      if UpdateGuard(selectedUserId, updatedName, updatedEmail) {
        var id := selectedUserId.value;
        call := Some(UpdateUser(id, UserData(updatedName, updatedEmail)));
        if outcome.Success? {
          users := WithUpdatedContact(users, id, updatedName, updatedEmail);
          selectedUserId := None;
          updatedName := "";
          updatedEmail := "";
        }
      }
    }

    /** Open the update popup for a record, pre-filled with its name and email. */
    method OpenUpdatePopup(userId: int, userName: string, userEmail: string)
      modifies this
      ensures State() == old(State()).(selectedUserId := Some(userId), updatedName := userName, updatedEmail := userEmail)
      ensures PopupOpen()
    {
      selectedUserId := Some(userId);
      updatedName := userName;
      updatedEmail := userEmail;
    }

    /** The popup's Cancel button: clears the selection only; the update form
        keeps what was typed. */
    method Cancel()
      modifies this
      ensures State() == old(State()).(selectedUserId := None)
      ensures !PopupOpen()
    {
      selectedUserId := None;
    }
  }

  /** A record whose id is 0 can be opened for update but never updated: the
      popup shows, yet the guard treats the id as absent, so Update makes no
      call and the popup stays open whatever the server would answer. */
  method UpdateWithIdZeroIsStuck(user: User, outcome: Done) returns (call: Option<Request>, stillOpen: bool)
    requires user.id == 0
    ensures call == None && stillOpen
  {
    var page := new UsersPage();
    page.OpenUpdatePopup(user.id, user.name, user.email);
    call := page.HandleUpdateUser(outcome);
    stillOpen := page.PopupOpen();
  }

  /** A create whose server record carries an id not yet on the page leaves
      exactly one record with that id, last in the list, and empties the form. */
  method CreatedRecordIsListedOnce(users: seq<User>, name: string, email: string, created: User)
    returns (count: nat, last: User, formEmpty: bool)
    requires CountId(users, created.id) == 0
    ensures count == 1 && last == created && formEmpty
  {
    var page := new UsersPage();
    page.FetchUsers(Success(users));
    page.newUserName, page.newUserEmail := name, email;
    var _ := page.HandleCreateUser(Success(created));
    count := CountId(page.users, created.id);
    last := page.users[|page.users| - 1];
    formEmpty := page.newUserName == "" && page.newUserEmail == "";
  }
}
