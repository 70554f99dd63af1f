/** The users directory page: a case-insensitive search over the cached
    users, and which of the loading, error and list views it shows. */
module UsersPageView {

  import opened Wrappers
  import opened Entities
  import opened Text
  import Collections

  const NO_MATCH_TEXT := "No users match your search criteria."
  const NO_USERS_TEXT := "No users available at the moment."

  /** The search test: the lower-cased name includes the lower-cased term. */
  function NameMatches(searchTerm: string): User -> bool
  {
    (u: User) => Contains(ToLower(u.name), ToLower(searchTerm))
  }

  /** `filteredUsers`: the users the search keeps, in list order. */
  function FilteredUsers(users: seq<User>, searchTerm: string): seq<User>
  {
    Collections.Filter(users, NameMatches(searchTerm))
  }

  /** Reference meaning of a match: the lower-cased term occurs at some
      position of the lower-cased name. */
  ghost predicate MatchesSearch(u: User, searchTerm: string)
  {
    exists k :: OccursAt(ToLower(u.name), ToLower(searchTerm), k)
  }

  /** The shown users are exactly the users that match the search, and
      never more than all users. */
  lemma FilteredUsersAreMatches(users: seq<User>, searchTerm: string)
    ensures var shown := FilteredUsers(users, searchTerm);
      && |shown| <= |users|
      && (forall i :: 0 <= i < |shown| ==> shown[i] in users && MatchesSearch(shown[i], searchTerm))
      && (forall i :: 0 <= i < |users| && MatchesSearch(users[i], searchTerm) ==> users[i] in shown)
  {
    var shown := FilteredUsers(users, searchTerm);
    forall i | 0 <= i < |shown| ensures MatchesSearch(shown[i], searchTerm) {
      ContainsOccurs(ToLower(shown[i].name), ToLower(searchTerm));
    }
    forall i | 0 <= i < |users| && MatchesSearch(users[i], searchTerm) ensures users[i] in shown {
      ContainsOccurs(ToLower(users[i].name), ToLower(searchTerm));
    }
  }

  /** The search keeps the list order: it works piece by piece on any split of the list. */
  lemma FilteredUsersKeepOrder(front: seq<User>, back: seq<User>, searchTerm: string)
    ensures FilteredUsers(front + back, searchTerm) == FilteredUsers(front, searchTerm) + FilteredUsers(back, searchTerm)
  {
    Collections.FilterConcat(front, back, NameMatches(searchTerm));
  }

  /** An empty search term shows every user. */
  lemma EmptySearchShowsAll(users: seq<User>)
    ensures FilteredUsers(users, "") == users
  {
    forall u | u in users ensures NameMatches("")(u) {
      ContainsEmpty(ToLower(u.name));
    }
    Collections.FilterKeepsAll(users, NameMatches(""));
  }

  /** Two search terms that agree once lower-cased show the same users;
      in particular a term and its lower-case form. */
  lemma SearchIgnoresCase(users: seq<User>, term: string, other: string)
    requires ToLower(term) == ToLower(other)
    ensures FilteredUsers(users, term) == FilteredUsers(users, other)
    ensures FilteredUsers(users, term) == FilteredUsers(users, ToLower(term))
  {
    Collections.FilterCongruent(users, NameMatches(term), NameMatches(other));
    ToLowerIdempotent(term);
    Collections.FilterCongruent(users, NameMatches(term), NameMatches(ToLower(term)));
  }

  /** What the page shows. */
  datatype Screen =
    | LoadingView
    | ErrorView(message: string)
    | ListView(shown: seq<User>, emptyText: Option<string>, totalCount: nat, shownCount: nat)

  /** The empty-state text: it depends only on whether a search term was typed. */
  function EmptyText(searchTerm: string): string
  {
    if searchTerm != "" then NO_MATCH_TEXT else NO_USERS_TEXT
  }

  /** The page's render: loading first, then a non-empty error, then the list. */
  function Render(loadingUsers: bool, errorUsers: Option<string>, users: seq<User>, searchTerm: string): Screen
  {
    if loadingUsers then LoadingView
    else if errorUsers.Some? && errorUsers.value != "" then ErrorView(errorUsers.value)
    else
      var shown := FilteredUsers(users, searchTerm);
      ListView(shown, if |shown| == 0 then Some(EmptyText(searchTerm)) else None, |users|, |shown|)
  }

  /** The loading view wins over the error view, which wins over the list;
      the list shows the search's users and counts no more than all users,
      every user when the term is empty. */
  lemma RenderPrecedence(loadingUsers: bool, errorUsers: Option<string>, users: seq<User>, searchTerm: string)
    ensures var screen := Render(loadingUsers, errorUsers, users, searchTerm);
      && (loadingUsers ==> screen == LoadingView)
      && (!loadingUsers && errorUsers.Some? && errorUsers.value != "" ==> screen == ErrorView(errorUsers.value))
      && (!loadingUsers && (errorUsers.None? || errorUsers.value == "") ==>
            && screen.ListView?
            && screen.shown == FilteredUsers(users, searchTerm)
            && screen.totalCount == |users|
            && screen.shownCount <= screen.totalCount
            && (searchTerm == "" ==> screen.shownCount == screen.totalCount)
            && (screen.emptyText.Some? <==> screen.shownCount == 0))
  {
    FilteredUsersAreMatches(users, searchTerm);
    if searchTerm == "" {
      EmptySearchShowsAll(users);
    }
  }

  /** The empty-state text is the no-match text exactly when a term was typed. */
  lemma EmptyTextByTerm(searchTerm: string)
    ensures EmptyText(searchTerm) == NO_MATCH_TEXT <==> searchTerm != ""
    ensures EmptyText(searchTerm) == NO_USERS_TEXT <==> searchTerm == ""
  {
  }
}
