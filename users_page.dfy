/** The users page: administrators are never listed, the search looks at
    names, username and e-mail, and creating a user starts from an empty
    form. */
module UsersPage {
  import opened Values
  import opened Text
  import opened Domain
  import opened ListViews
  import opened UserForm

  /** `user.rol?.name !== "ADMIN"`. */
  predicate NotAdmin(u: UserRecord)
  {
    u.rolName != Some("ADMIN")
  }

  /** A user matches a term when the name, last name, username or e-mail
      contains the term, ignoring case. */
  predicate UserMatches(term: string, u: UserRecord)
  {
    FieldMatches(u.name, term) || FieldMatches(u.lastName, term) || FieldMatches(u.username, term) || FieldMatches(u.email, term)
  }

  /** The search result for a non-blank term: administrators are dropped
      first, then the non-matching users. */
  function MatchingUsers(all: seq<UserRecord>, term: string): seq<UserRecord>
  {
    Filter(Filter(all, NotAdmin), u => UserMatches(term, u))
  }

  /** `displayUsers`: the search result, or everybody when it is empty, with
      administrators removed. */
  function DisplayUsers(filtered: seq<UserRecord>, all: seq<UserRecord>): seq<UserRecord>
  {
    Filter(Display(filtered, all), NotAdmin)
  }

  /** The search keeps exactly the non-administrators that match. */
  lemma MatchingUsersMembers(all: seq<UserRecord>, term: string)
    ensures forall u :: u in MatchingUsers(all, term) <==> u in all && NotAdmin(u) && UserMatches(term, u)
  {
  }

  /** No administrator is ever listed, and every non-administrator of what
      would be displayed is. */
  lemma NoAdminDisplayed(filtered: seq<UserRecord>, all: seq<UserRecord>)
    ensures forall u :: u in DisplayUsers(filtered, all) ==> NotAdmin(u)
    ensures forall u :: u in Display(filtered, all) && NotAdmin(u) ==> u in DisplayUsers(filtered, all)
  {
  }

  /** A non-empty search result is listed as it is: the second removal of
      administrators finds none. */
  lemma SearchResultListedAsIs(all: seq<UserRecord>, term: string)
    requires MatchingUsers(all, term) != []
    ensures DisplayUsers(MatchingUsers(all, term), all) == MatchingUsers(all, term)
  {
    FilterIdempotent(MatchingUsers(all, term), NotAdmin);
  }

  /** A term that only administrators match gives an empty result, so the
      page lists every non-administrator instead. */
  lemma AdminOnlyMatchShowsEveryone(all: seq<UserRecord>, term: string)
    requires forall u :: u in all && UserMatches(term, u) ==> !NotAdmin(u)
    ensures MatchingUsers(all, term) == []
    ensures DisplayUsers(MatchingUsers(all, term), all) == Filter(all, NotAdmin)
  {
  }

  /** The page's own state over the list the users hook provides. */
  /** The call the form's submit makes on the users hook. */
  datatype UserCall = UpdateUser(id: nat, data: UserValues) | CreateUser(data: UserValues)

  class UsersView {
    const users: seq<UserRecord>
    var filtered: seq<UserRecord>
    var editing: Option<UserRecord>
    /** The storage the edited user is responsible for, if any. */
    var userStorage: Option<Storage>
    var modalOpen: bool

    constructor (users: seq<UserRecord>)
      ensures this.users == users && filtered == [] && editing.None? && userStorage.None? && !modalOpen
    {
      this.users := users;
      filtered := [];
      editing := None;
      userStorage := None;
      modalOpen := false;
    }

    function Displayed(): seq<UserRecord>
      reads this
    {
      DisplayUsers(filtered, users)
    }

    /** `handleSearch`. */
    method HandleSearch(term: string)
      modifies this
      ensures IsBlank(term) ==> filtered == []
      ensures !IsBlank(term) ==> filtered == MatchingUsers(users, term)
      ensures editing == old(editing) && userStorage == old(userStorage) && modalOpen == old(modalOpen)
    {
      if IsBlank(term) {
        filtered := [];
        return;
      }
      filtered := MatchingUsers(users, term);
    }

    /** `handleCreateUser`: the form opens with no user and no storage. */
    method HandleCreateUser()
      modifies this
      ensures editing.None? && userStorage.None? && modalOpen && filtered == old(filtered)
    {
      editing := None;
      userStorage := None;
      modalOpen := true;
    }

    /** `handleEditUser`, with the storage lookup's answer (`None` when it
        failed or found nothing). A user whose id is falsy is not looked up. */
    method HandleEditUser(u: UserRecord, found: Option<Storage>)
      modifies this
      ensures editing == Some(u) && modalOpen && filtered == old(filtered)
      ensures userStorage == if u.id != 0 then found else None
    {
      editing := Some(u);
      if u.id != 0 {
        userStorage := found;
      } else {
        userStorage := None;
      }
      modalOpen := true;
    }

    /** The call `handleSubmitUser` makes: an update of the user being
        edited, or a creation, with the form's values. */
    function SubmitCall(data: UserValues): (call: UserCall)
      reads this
      ensures call.UpdateUser? <==> editing.Some?
      ensures call.data == data
      ensures call.UpdateUser? ==> call.id == editing.value.id
    {
      if editing.Some? then UpdateUser(editing.value.id, data) else CreateUser(data)
    }

    /** `handleSubmitUser`, with the users hook's outcome of the call: the
        form closes and forgets the edited user only on success. */
    method HandleSubmitUser(data: UserValues, success: bool) returns (call: UserCall)
      modifies this
      ensures call == old(SubmitCall(data))
      ensures success ==> !modalOpen && editing.None?
      ensures !success ==> modalOpen == old(modalOpen) && editing == old(editing)
      ensures filtered == old(filtered) && userStorage == old(userStorage)
    {
      call := SubmitCall(data);
      if success {
        modalOpen := false;
        editing := None;
      }
    }
  }
}
