/** The team list (`UserList`): loading the users with a fallback to three
    sample users, the avatar initials, the role badge and what the list
    shows in each state. */
module UserList {
  import opened Wrappers
  import Text

  datatype TaskStatistics = TaskStatistics(total: int, completed: int, inProgress: int, pending: int)

  /** A user as the list reads it; dates stay the strings the API sends. */
  datatype User = User(
    id: int,
    name: string,
    email: string,
    role: Option<string>,
    created: Option<string>,
    statistics: Option<TaskStatistics>)

  const FailedMessage: string := "Failed to load users from API"

  /** The users shown when the request fails. */
  const SampleUsers: seq<User> := [
    User(1, "John Doe", "john@taskflow.com", Some("admin"), Some("2025-01-15"), Some(TaskStatistics(12, 8, 3, 1))),
    User(2, "Jane Smith", "jane@taskflow.com", Some("manager"), Some("2025-02-01"), Some(TaskStatistics(8, 5, 2, 1))),
    User(3, "Mike Johnson", "mike@taskflow.com", Some("user"), Some("2025-03-10"), Some(TaskStatistics(6, 4, 1, 1)))
  ]

  /** The sample users have distinct ids, the roles admin, manager and user
      in that order, and statistics
      whose parts add up to their totals. */
  lemma SampleUsersShape()
    ensures |SampleUsers| == 3
    ensures forall i, j :: 0 <= i < j < 3 ==> SampleUsers[i].id != SampleUsers[j].id
    ensures SampleUsers[0].role == Some("admin") && SampleUsers[1].role == Some("manager")
    ensures SampleUsers[2].role == Some("user")
    ensures forall i :: 0 <= i < 3 ==> (SampleUsers[i].statistics.Some?
      && var s := SampleUsers[i].statistics.value; s.completed + s.inProgress + s.pending == s.total)
  {
  }

  /** `user.role || 'user'`: a missing or empty role reads as "user". */
  function DisplayedRole(role: Option<string>): (r: string)
    ensures r != []
    ensures role.Some? && role.value != [] ==> r == role.value
    ensures role.None? || role.value == [] ==> r == "user"
  {
    if role.Some? && role.value != [] then role.value else "user"
  }

  const AdminBadge: string := "bg-purple-100 text-purple-800"
  const ManagerBadge: string := "bg-blue-100 text-blue-800"
  const UserBadge: string := "bg-green-100 text-green-800"
  const OtherBadge: string := "bg-gray-100 text-gray-800"

  /** `getRoleColor`: the three known roles, matched case-sensitively, get
      their own colours; anything else is grey. */
  function RoleColor(role: string): (c: string)
    ensures c == OtherBadge <==> role != "admin" && role != "manager" && role != "user"
  {
    if role == "admin" then AdminBadge
    else if role == "manager" then ManagerBadge
    else if role == "user" then UserBadge
    else OtherBadge
  }

  /** Different known roles get different badges; a user without a role gets
      the ordinary user's badge; the capitalised roles the API's sample
      users carry are not recognised. */
  lemma RoleColors(a: string, b: string, role: Option<string>)
    ensures a != b && RoleColor(a) != OtherBadge && RoleColor(b) != OtherBadge ==> RoleColor(a) != RoleColor(b)
    ensures role.None? ==> RoleColor(DisplayedRole(role)) == UserBadge
    ensures RoleColor("Admin") == OtherBadge && RoleColor("User") == OtherBadge
  {
  }

  /** `getInitials(name)`: the first character of every space-separated
      part, upper-cased, at most two of them. */
  function Initials(name: string): (r: string)
    ensures |r| <= 2
  {
    Text.Take(Text.Upper(Text.Heads(Text.Split(name, ' '))), 2)
  }

  /** The initials are the (upper-cased) first two word starts: a character
      that is not a space and begins the name or follows a space. Runs of
      spaces add nothing. */
  lemma InitialsAreWordStarts(name: string)
    ensures Initials(name) == Text.Take(Text.Upper(Text.WordStarts(name, ' ', true)), 2)
    ensures forall i :: 0 <= i < |Initials(name)| ==>
      Initials(name)[i] == Text.UpperChar(Text.WordStarts(name, ' ', true)[i])
  {
    Text.HeadsOfSplit(name, ' ');
  }

  /** The compact view's statistic: completed over total tasks. */
  function CompactStatistics(s: TaskStatistics): (t: string)
    ensures var k := |Text.NumberText(s.completed)|;
      k < |t| && t[k] == '/'
      && Text.ReadNumber(t[..k]) == s.completed && Text.ReadNumber(t[k + 1..]) == s.total
  {
    var c := Text.NumberText(s.completed);
    var n := Text.NumberText(s.total);
    Text.NumberTextRoundTrip(s.completed);
    Text.NumberTextRoundTrip(s.total);
    assert (c + "/" + n)[..|c|] == c;
    assert (c + "/" + n)[|c| + 1..] == n;
    c + "/" + n
  }

  /** What the component renders. */
  datatype View =
    | Spinner
    | NoUsers(error: Option<string>)
    | Listing(notice: Option<string>, users: seq<User>)

  /** The render branches: the spinner while loading, "No users found" (with
      the error if any) for an empty list, otherwise the list under an
      optional notice. */
  function Render(loading: bool, users: seq<User>, error: string): (v: View)
    ensures v.Spinner? <==> loading
    ensures v.NoUsers? <==> !loading && users == []
    ensures v.Listing? ==> v.users == users && (v.notice.Some? <==> error != [])
    ensures v.Listing? && error != [] ==> v.notice == Some(error + " - Showing sample data")
  {
    if loading then Spinner
    else if users == [] then NoUsers(if error == [] then None else Some(error))
    else Listing(if error == [] then None else Some(error + " - Showing sample data"), users)
  }

  /** The component's state. */
  class UserListState {
    var users: seq<User>
    var loading: bool
    var error: string

    constructor ()
      ensures users == [] && loading && error == []
    {
      users := [];
      loading := true;
      error := [];
    }

    /** `loadUsers()`: `response` is `None` when the request throws, and
        otherwise the response's `users` field, `None` when it is missing. */
    method LoadUsers(response: Option<Option<seq<User>>>)
      modifies this
      ensures !loading
      ensures response.None? ==> users == SampleUsers && error == FailedMessage
      ensures response.Some? ==> users == response.value.GetOr([]) && error == []
    {
      loading := true;
      match response {
        case None =>
          error := FailedMessage;
          users := SampleUsers;
        case Some(field) =>
          users := field.GetOr([]);
          error := [];
      }
      loading := false;
    }
  }

  /** After a failed request the list shows the sample users under the
      failure notice; after a response without users, "No users found". */
  lemma ViewAfterLoad()
    ensures Render(false, SampleUsers, FailedMessage)
      == Listing(Some(FailedMessage + " - Showing sample data"), SampleUsers)
    ensures Render(false, [], []) == NoUsers(None)
  {
  }
}
