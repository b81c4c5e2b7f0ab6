/** The user list page: a search over name and e-mail, and a role filter. */
module UserList {
  import opened Text
  import opened Seqs

  datatype User = User(id: string, name: string, email: string, role: string)

  /** The search test: an empty query matches everyone; otherwise name or e-mail contain it, ignoring case. */
  predicate MatchesSearch(u: User, query: string) {
    query == "" || Contains(ToLower(u.name), ToLower(query)) || Contains(ToLower(u.email), ToLower(query))
  }

  /** The role test: an empty filter matches everyone; otherwise the role must be exactly the filter. */
  predicate MatchesRole(u: User, roleFilter: string) {
    roleFilter == "" || u.role == roleFilter
  }

  /** `filteredUsers`. */
  function FilteredUsers(users: seq<User>, query: string, roleFilter: string): seq<User> {
    Filter(users, u => MatchesSearch(u, query) && MatchesRole(u, roleFilter))
  }

  /** The result keeps the list's order, and a user is kept iff listed and matching both the search and the role. */
  lemma {:induction false} FilteredUsersSoundAndComplete(users: seq<User>, query: string, roleFilter: string, u: User)
    ensures IsSubsequence(FilteredUsers(users, query, roleFilter), users)
    ensures u in FilteredUsers(users, query, roleFilter) <==> u in users && MatchesSearch(u, query) && MatchesRole(u, roleFilter)
  {
    FilterIsSubsequence(users, u => MatchesSearch(u, query) && MatchesRole(u, roleFilter));
    FilterMembers(users, u => MatchesSearch(u, query) && MatchesRole(u, roleFilter), u);
  }

  /** An empty query and no role filter keep every user. */
  lemma {:induction false} FilteredUsersWithoutCriteria(users: seq<User>)
    ensures FilteredUsers(users, "", "") == users
  {
    FilterKeepsAll(users, u => MatchesSearch(u, "") && MatchesRole(u, ""));
  }

  /** The search ignores the case of the query: typing it in capitals selects the same users. */
  lemma {:induction false} FilteredUsersIgnoresQueryCase(users: seq<User>, query: string, roleFilter: string)
    ensures FilteredUsers(users, ToLower(query), roleFilter) == FilteredUsers(users, query, roleFilter)
  {
    ToLowerIdempotent(query);
    assert (ToLower(query) == "") == (query == "");
    FilterCongruent(users,
      u => MatchesSearch(u, ToLower(query)) && MatchesRole(u, roleFilter),
      u => MatchesSearch(u, query) && MatchesRole(u, roleFilter));
  }
}
