/** The admin users table and its search box. */
module UsersTable {
  import opened JsText
  import opened Seqs

  /** An entry of the `/balance` list; "" stands for a missing name or e-mail. */
  datatype User = User(id: string, name: string, email: string)

  /** What `/balance` answered: an array of users, or anything else. */
  datatype BalanceResponse = UserArray(users: seq<User>) | NotAnArray

  /** `Array.isArray(data) ? data : []` */
  function UsersOf(response: BalanceResponse): (r: seq<User>)
    ensures response.NotAnArray? ==> r == []
    ensures response.UserArray? ==> r == response.users
  {
    match response
    case UserArray(users) => users
    case NotAnArray => []
  }

  /** The text the search looks in: `user.name || user.email || ''`. */
  function SearchText(u: User): string {
    Or(u.name, u.email)
  }

  /** The user's search text contains the query, ignoring case. */
  predicate Matches(q: string, u: User) {
    Includes(ToLower(SearchText(u)), ToLower(q))
  }

  /** `filteredUsers` */
  function FilterUsers(users: seq<User>, q: string): (r: seq<User>)
    ensures q == "" ==> r == users
    ensures IsSubsequence(r, users)
    ensures forall u :: u in r <==> u in users && Matches(q, u)
    ensures forall u :: multiset(r)[u] == if Matches(q, u) then multiset(users)[u] else 0
  {
    var keep := (u: User) => Matches(q, u);
    FilterIsSubsequence(keep, users);
    FilterCounts(keep, users);
    if q == "" then FilterKeepsAll(keep, users); Filter(keep, users)
    else Filter(keep, users)
  }

  /** A user who has a name is matched on the name alone, never on the e-mail. */
  lemma NameShadowsEmail(u: User, q: string)
    requires u.name != ""
    ensures Matches(q, u) <==> Includes(ToLower(u.name), ToLower(q))
  {
  }

  /** A user with neither name nor e-mail is listed only while the search box is empty. */
  lemma NamelessUserOnlyForEmptyQuery(u: User, q: string)
    requires u.name == "" && u.email == ""
    ensures Matches(q, u) <==> q == ""
  {
    EmptyIncludesOnlyEmpty(ToLower(q));
  }
}
