/** The administrator's user table: a search over name and email, role and
    status filters, status badge colours and the summary counts. */
module UserManagement {
  import opened Common

  datatype AdminUser = AdminUser(id: int, name: string, email: string, role: string, status: string)

  const ALL := "all"

  /** The search term occurs in the name or in the email, ignoring ASCII case. */
  predicate MatchesSearch(u: AdminUser, term: string) {
    Contains(ToLower(u.name), ToLower(term)) || Contains(ToLower(u.email), ToLower(term))
  }

  /** The `filter` callback: search, then role ("all" or exactly that role),
      then status ("all" or exactly that status). */
  predicate Keeps(u: AdminUser, term: string, role: string, status: string) {
    MatchesSearch(u, term) && (role == ALL || u.role == role) && (status == ALL || u.status == status)
  }

  /** `filteredUsers`: the users the filters keep, in their order. */
  function FilteredUsers(users: seq<AdminUser>, term: string, role: string, status: string): (r: seq<AdminUser>)
    ensures forall i :: 0 <= i < |r| ==> r[i] in users && MatchesSearch(r[i], term)
    ensures forall i :: 0 <= i < |r| ==> (role == ALL || r[i].role == role) && (status == ALL || r[i].status == status)
    ensures forall i :: 0 <= i < |users| && Keeps(users[i], term, role, status) ==> users[i] in r
  {
    Filter(users, (u: AdminUser) => Keeps(u, term, role, status))
  }

  /** The filtered list keeps the users' order. */
  lemma FilteredIsSubsequence(users: seq<AdminUser>, term: string, role: string, status: string)
    ensures IsSubsequence(FilteredUsers(users, term, role, status), users)
  {
    FilterIsSubsequence(users, (u: AdminUser) => Keeps(u, term, role, status));
  }

  /** With no search term and both filters on "all", everyone is listed. */
  lemma NoFilterKeepsAll(users: seq<AdminUser>)
    ensures FilteredUsers(users, "", ALL, ALL) == users
  {
    forall i | 0 <= i < |users| ensures Keeps(users[i], "", ALL, ALL) {
      ContainsEmpty(ToLower(users[i].name));
      assert ToLower("") == "";
    }
    FilterAll(users, (u: AdminUser) => Keeps(u, "", ALL, ALL));
  }

  /** `getStatusColor`. */
  function StatusColor(status: string): (c: string)
    ensures status == "active" <==> c == "bg-success/20 text-success"
    ensures status == "inactive" <==> c == "bg-warning/20 text-warning"
    ensures status == "banned" <==> c == "bg-error/20 text-error"
    ensures status !in {"active", "inactive", "banned"} <==> c == "bg-text-tertiary/20 text-text-tertiary"
  {
    match status
    case "active" => "bg-success/20 text-success"
    case "inactive" => "bg-warning/20 text-warning"
    case "banned" => "bg-error/20 text-error"
    case _ => "bg-text-tertiary/20 text-text-tertiary"
  }

  predicate IsActive(u: AdminUser) { u.status == "active" }
  predicate IsModerator(u: AdminUser) { u.role == "moderator" }

  /** The three summary cards, always over the whole list. */
  datatype Summary = Summary(total: nat, active: nat, moderators: nat)

  /** The cards count the whole list: "Active Users" as many as the status
      filter "active" lists with no search and no role filter, "Moderators" as
      many as the role filter "moderator" lists with no search and no status
      filter. */
  function Summarize(users: seq<AdminUser>): (s: Summary)
    ensures s.total == |users| && s.active <= s.total && s.moderators <= s.total
    ensures s.active == |FilteredUsers(users, "", ALL, "active")|
    ensures s.moderators == |FilteredUsers(users, "", "moderator", ALL)|
  {
    ActiveMatchesFilter(users);
    ModeratorMatchesFilter(users);
    Summary(|users|, |Filter(users, IsActive)|, |Filter(users, IsModerator)|)
  }

  lemma ActiveMatchesFilter(users: seq<AdminUser>)
    ensures Filter(users, IsActive) == FilteredUsers(users, "", ALL, "active")
  {
    forall i | 0 <= i < |users| ensures IsActive(users[i]) == Keeps(users[i], "", ALL, "active") {
      ContainsEmpty(ToLower(users[i].name));
      assert ToLower("") == "";
    }
    FilterEquiv(users, IsActive, (u: AdminUser) => Keeps(u, "", ALL, "active"));
  }

  lemma ModeratorMatchesFilter(users: seq<AdminUser>)
    ensures Filter(users, IsModerator) == FilteredUsers(users, "", "moderator", ALL)
  {
    forall i | 0 <= i < |users| ensures IsModerator(users[i]) == Keeps(users[i], "", "moderator", ALL) {
      ContainsEmpty(ToLower(users[i].name));
      assert ToLower("") == "";
    }
    FilterEquiv(users, IsModerator, (u: AdminUser) => Keeps(u, "", "moderator", ALL));
  }
}
