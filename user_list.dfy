/**
 * The user-list page: one page of users fetched from the service, the view
 * filtered by the search box, the pagination cursor, and local removal of a
 * deleted user.
 */
module UserList {
  import opened Optional
  import opened Api
  import opened Text
  import opened Sequences

  const FetchErrorMessage := "Failed to load users. Please try again."

  /**
   * The search test for one user: the lower-cased query, untrimmed, occurs in
   * the lower-cased first name, last name or email.
   */
  predicate Matches(u: User, query: string) {
    var q := ToLower(query);
    Contains(ToLower(u.firstName), q) || Contains(ToLower(u.lastName), q) || Contains(ToLower(u.email), q)
  }

  /** `users.filter(...)` with the search test. */
  function MatchingUsers(users: seq<User>, query: string): (r: seq<User>)
    ensures IsSubsequence(r, users)
    ensures forall u | u in r :: u in users && Matches(u, query)
    ensures forall u | u in users && Matches(u, query) :: u in r
    ensures forall u :: multiset(r)[u] == if Matches(u, query) then multiset(users)[u] else 0
  {
    FilterIsSubsequence(users, u => Matches(u, query));
    FilterCounts(users, u => Matches(u, query));
    Filter(users, u => Matches(u, query))
  }

  /** `users.filter((user) => user.id !== id)` */
  function WithoutId(users: seq<User>, id: int): (r: seq<User>)
    ensures IsSubsequence(r, users)
    ensures forall u | u in r :: u in users && u.id != id
    ensures forall u | u in users && u.id != id :: u in r
    ensures forall u :: multiset(r)[u] == if u.id != id then multiset(users)[u] else 0
  {
    FilterIsSubsequence(users, (u: User) => u.id != id);
    FilterCounts(users, (u: User) => u.id != id);
    Filter(users, (u: User) => u.id != id)
  }

  /**
   * The filtered view after a search: the whole page, in order, for a blank
   * query; otherwise the users of the page that match it, in page order.
   */
  function SearchResult(users: seq<User>, query: string): (r: seq<User>)
    ensures IsSubsequence(r, users)
    ensures IsBlank(query) ==> r == users
    ensures !IsBlank(query) ==> forall u | u in users :: u in r <==> Matches(u, query)
  {
    if IsBlank(query) then
      SubsequenceReflexive(users);
      users
    else
      MatchingUsers(users, query)
  }

  /** Removing one id from both lists keeps the filtered view a subsequence of the page. */
  lemma {:induction false} DeletePreservesView(filtered: seq<User>, users: seq<User>, id: int)
    requires IsSubsequence(filtered, users)
    ensures IsSubsequence(WithoutId(filtered, id), WithoutId(users, id))
  {
    FilterMonotone(filtered, users, (u: User) => u.id != id);
  }

  /** The page's state. Remote replies are parameters of the handlers. */
  class UserListPage {
    var users: seq<User>
    var filteredUsers: seq<User>
    var loading: bool
    var error: Option<string>
    var currentPage: int
    var totalPages: int
    var searchQuery: string
    /** The pages requested with `GET /users?page=N`, oldest first. */
    var pageRequests: seq<int>
    /** The ids sent to `DELETE /users/{id}`, oldest first. */
    var deleteRequests: seq<int>

    /** The filtered view lists users of the held page, in page order. */
    ghost predicate Valid()
      reads this
    {
      IsSubsequence(filteredUsers, users)
    }

    /** The state on the first render, before the mount effect fetches page 1. */
    constructor ()
      ensures Valid()
      ensures users == [] && filteredUsers == [] && loading && error == None
      ensures currentPage == 1 && totalPages == 1 && searchQuery == ""
      ensures pageRequests == [] && deleteRequests == []
    {
      users, filteredUsers := [], [];
      loading, error := true, None;
      currentPage, totalPages := 1, 1;
      searchQuery := "";
      pageRequests, deleteRequests := [], [];
    }

    /**
     * `fetchUsers(page)`: nothing happens when the session is anonymous;
     * otherwise one request for `page` is made, a reply replaces the page and
     * resets the filtered view to all of it (whatever the search query), a
     * failure records the error and keeps the old page, and loading ends in
     * both cases.
     */
    method FetchUsers(page: int, isAuthenticated: bool, response: Outcome<PaginatedResponse>)
      requires Valid()
      modifies this
      ensures Valid()
      ensures !isAuthenticated ==> unchanged(this)
      ensures isAuthenticated ==> !loading && pageRequests == old(pageRequests) + [page]
      ensures isAuthenticated && response.Success? ==>
        && users == response.value.data && filteredUsers == response.value.data
        && totalPages == response.value.totalPages && error == None
      ensures isAuthenticated && response.Failure? ==>
        && users == old(users) && filteredUsers == old(filteredUsers)
        && totalPages == old(totalPages) && error == Some(FetchErrorMessage)
      ensures currentPage == old(currentPage) && searchQuery == old(searchQuery)
      ensures deleteRequests == old(deleteRequests)
    {
      if !isAuthenticated {
        return;
      }
      loading := true;
      error := None;
      pageRequests := pageRequests + [page];
      match response {
        case Success(data) =>
          users := data.data;
          filteredUsers := data.data;
          totalPages := data.totalPages;
          SubsequenceReflexive(users);
        case Failure =>
          error := Some(FetchErrorMessage);
      }
      loading := false;
    }

    /**
     * `handlePageChange(page)` followed by the effect that watches
     * `currentPage`: the cursor moves to `page`, and the page is fetched only
     * when the cursor actually changed (setting the same value does not re-run
     * the effect). The range of `page` is the caller's business.
     */
    method HandlePageChange(page: int, isAuthenticated: bool, response: Outcome<PaginatedResponse>)
      requires Valid()
      modifies this
      ensures Valid()
      ensures currentPage == page
      ensures page == old(currentPage) || !isAuthenticated ==>
        && pageRequests == old(pageRequests) && users == old(users) && filteredUsers == old(filteredUsers)
        && totalPages == old(totalPages) && loading == old(loading) && error == old(error)
      ensures page != old(currentPage) && isAuthenticated ==>
        pageRequests == old(pageRequests) + [page] && !loading
      ensures page != old(currentPage) && isAuthenticated && response.Success? ==>
        && users == response.value.data && filteredUsers == users
        && totalPages == response.value.totalPages && error == None
      ensures page != old(currentPage) && isAuthenticated && response.Failure? ==>
        && users == old(users) && filteredUsers == old(filteredUsers)
        && totalPages == old(totalPages) && error == Some(FetchErrorMessage)
      ensures searchQuery == old(searchQuery) && deleteRequests == old(deleteRequests)
    {
      var previous := currentPage;
      currentPage := page;
      if page != previous {
        FetchUsers(page, isAuthenticated, response);
      }
    }

    /** `handleSearch(query)`: records the query and recomputes the view from the held page. */
    method HandleSearch(query: string)
      requires Valid()
      modifies this`searchQuery, this`filteredUsers
      ensures Valid()
      ensures searchQuery == query
      ensures filteredUsers == SearchResult(users, query)
    {
      searchQuery := query;
      if IsBlank(query) {
        filteredUsers := users;
        SubsequenceReflexive(users);
        return;
      }
      filteredUsers := MatchingUsers(users, query);
    }

    /**
     * `handleDeleteUser(id)`: one delete request; on success the id is removed
     * from both lists, on failure nothing changes. The pagination totals are
     * never touched.
     */
    method HandleDeleteUser(id: int, response: Outcome<()>)
      requires Valid()
      modifies this`users, this`filteredUsers, this`deleteRequests
      ensures Valid()
      ensures deleteRequests == old(deleteRequests) + [id]
      ensures response.Success? ==>
        users == WithoutId(old(users), id) && filteredUsers == WithoutId(old(filteredUsers), id)
      ensures response.Failure? ==> users == old(users) && filteredUsers == old(filteredUsers)
      ensures totalPages == old(totalPages)
    {
      deleteRequests := deleteRequests + [id];
      if response.Success? {
        DeletePreservesView(filteredUsers, users, id);
        users := WithoutId(users, id);
        filteredUsers := WithoutId(filteredUsers, id);
      }
    }
  }

  /** The user of the search examples. */
  const Eve := User(4, "eve.holt@reqres.in", "Eve", "Holt", "")

  /** Searching "EVE" finds Eve Holt whatever else the page holds: the match ignores case. */
  lemma SearchIgnoresCase(page: seq<User>)
    requires Eve in page
    ensures Eve in SearchResult(page, "EVE")
  {
    assert ToLower("EVE") == "eve";
    assert OccursAt(ToLower(Eve.firstName), ToLower("EVE"), 0);
    assert !IsSpace("EVE"[0]);
  }

  /** Searching "holt@" finds Eve Holt: a fragment of the email is enough. */
  lemma SearchMatchesEmailFragment(page: seq<User>)
    requires Eve in page
    ensures Eve in SearchResult(page, "holt@")
  {
    assert ToLower("holt@") == "holt@";
    assert OccursAt(ToLower(Eve.email), ToLower("holt@"), 4);
    assert !IsSpace("holt@"[0]);
  }

  /** Searching "zzz" leaves Eve Holt out. */
  lemma SearchExcludesNonMatch(page: seq<User>)
    ensures Eve !in SearchResult(page, "zzz")
  {
    assert !IsSpace("zzz"[0]);
    var q := ToLower("zzz");
    assert q == "zzz";
    forall hay | hay in {Eve.firstName, Eve.lastName, Eve.email}
      ensures !Contains(ToLower(hay), q)
    {
      forall i | 0 <= i <= |hay| - 3 ensures !OccursAt(ToLower(hay), q, i) {
        assert ToLower(hay)[i] == LowerChar(hay[i]) != 'z';
      }
    }
  }
}
