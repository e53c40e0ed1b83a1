/**
 * The subscription-management page: the user list and its three updates (toggle premium,
 * set a subscription length, grant premium to every free user), the premium and free totals,
 * the name/email search and the reminder toasts raised whenever the list changes.
 * Dates are day numbers; "today" is a parameter because the page reads the clock.
 */
module Subscription {
  import opened Seqs
  import opened Text

  datatype User = User(id: int, name: string, email: string, isPremium: bool, subscriptionDate: int, premiumDaysLeft: int)

  /** The list after `togglePremiumStatus(id)`. */
  function TogglePremium(users: seq<User>, id: int): (r: seq<User>)
    ensures |r| == |users|
    ensures forall i :: 0 <= i < |users| ==>
      && r[i].isPremium == (if users[i].id == id then !users[i].isPremium else users[i].isPremium)
      && r[i].(isPremium := users[i].isPremium) == users[i]
  {
    seq(|users|, i requires 0 <= i < |users| =>
      if users[i].id == id then users[i].(isPremium := !users[i].isPremium) else users[i])
  }

  /** The list after `setSubscription(id, days)` on day `today`. */
  function SetSubscription(users: seq<User>, id: int, days: int, today: int): (r: seq<User>)
    ensures |r| == |users|
    ensures forall i :: 0 <= i < |users| ==>
      && r[i].isPremium == users[i].isPremium
      && (users[i].id == id ==> r[i].premiumDaysLeft == days && r[i].subscriptionDate == today + days)
      && r[i].(subscriptionDate := users[i].subscriptionDate, premiumDaysLeft := users[i].premiumDaysLeft) == users[i]
      && (users[i].id != id ==> r[i] == users[i])
  {
    seq(|users|, i requires 0 <= i < |users| =>
      if users[i].id == id then users[i].(subscriptionDate := today + days, premiumDaysLeft := days) else users[i])
  }

  /** The list after `grantPremiumToNewUsers(days)` on day `today`. */
  function GrantPremium(users: seq<User>, days: int, today: int): (r: seq<User>)
    ensures |r| == |users|
    ensures forall i :: 0 <= i < |users| ==>
      && r[i].isPremium
      && (!users[i].isPremium ==> r[i] == users[i].(isPremium := true, subscriptionDate := today, premiumDaysLeft := days))
      && (users[i].isPremium ==> r[i] == users[i])
  {
    seq(|users|, i requires 0 <= i < |users| =>
      if !users[i].isPremium then users[i].(isPremium := true, subscriptionDate := today, premiumDaysLeft := days)
      else users[i])
  }

  /** Toggling the same id twice gives back the original list. */
  lemma ToggleTwice(users: seq<User>, id: int)
    ensures TogglePremium(TogglePremium(users, id), id) == users
  {
    var r := TogglePremium(TogglePremium(users, id), id);
    assert forall i :: 0 <= i < |users| ==> r[i] == users[i];
  }

  /** A second grant finds no free user, whatever its length and date, and changes nothing. */
  lemma GrantIdempotent(users: seq<User>, days: int, today: int, days': int, today': int)
    ensures GrantPremium(GrantPremium(users, days, today), days', today') == GrantPremium(users, days, today)
  {
  }

  predicate IsPremiumUser(u: User) { u.isPremium }
  predicate IsFreeUser(u: User) { !u.isPremium }

  /** `totalPremiumUsers` */
  function TotalPremiumUsers(users: seq<User>): (n: nat)
    ensures n <= |users|
  {
    Count(IsPremiumUser, users)
  }

  /** `totalFreeUsers` */
  function TotalFreeUsers(users: seq<User>): (n: nat)
    ensures n <= |users|
  {
    Count(IsFreeUser, users)
  }

  /** Every user is counted exactly once, as premium or as free. */
  lemma TotalsPartition(users: seq<User>)
    ensures TotalPremiumUsers(users) + TotalFreeUsers(users) == |users|
  {
    CountComplement(IsPremiumUser, IsFreeUser, users);
  }

  /** After a grant every user is premium: the free total is zero. */
  lemma GrantLeavesNoFreeUsers(users: seq<User>, days: int, today: int)
    ensures TotalPremiumUsers(GrantPremium(users, days, today)) == |users|
    ensures TotalFreeUsers(GrantPremium(users, days, today)) == 0
  {
    var r := GrantPremium(users, days, today);
    CountFull(IsPremiumUser, r);
    TotalsPartition(r);
  }

  /** Setting a subscription length never moves a user between the premium and free totals. */
  lemma SetSubscriptionKeepsTotals(users: seq<User>, id: int, days: int, today: int)
    ensures TotalPremiumUsers(SetSubscription(users, id, days, today)) == TotalPremiumUsers(users)
    ensures TotalFreeUsers(SetSubscription(users, id, days, today)) == TotalFreeUsers(users)
  {
    var r := SetSubscription(users, id, days, today);
    CountPointwise(IsPremiumUser, r, users);
    CountPointwise(IsFreeUser, r, users);
  }

  /** The search box: the lowercased query occurs in the lowercased name or email. */
  predicate MatchesSearch(u: User, query: string)
  {
    IncludesIgnoringCase(u.name, query) || IncludesIgnoringCase(u.email, query)
  }

  /** `filteredUsers`: computed by the page, but the table does not show it (see `TableRows`). */
  function FilteredUsers(users: seq<User>, query: string): (r: seq<User>)
    ensures forall u :: u in r <==> u in users && MatchesSearch(u, query)
  {
    Filter(u => MatchesSearch(u, query), users)
  }

  /** The search keeps the users it keeps in their list order. */
  lemma FilteredUsersIsSubsequence(users: seq<User>, query: string)
    ensures IsSubsequence(FilteredUsers(users, query), users)
  {
    FilterIsSubsequence(u => MatchesSearch(u, query), users);
  }

  /** An empty search keeps every user, in order. */
  lemma EmptySearchKeepsAll(users: seq<User>)
    ensures FilteredUsers(users, "") == users
  {
    forall u | u in users ensures MatchesSearch(u, "") {
      EmptyQueryIncluded(u.name);
    }
    FilterKeepsAll(u => MatchesSearch(u, ""), users);
  }

  /** The search ignores letter case in the query. */
  lemma SearchCaseIgnored(users: seq<User>, query: string, query': string)
    requires Lower(query) == Lower(query')
    ensures FilteredUsers(users, query) == FilteredUsers(users, query')
  {
    forall u | u in users
      ensures MatchesSearch(u, query) == MatchesSearch(u, query')
    {
      IgnoresCase(u.name, u.name, query, query');
      IgnoresCase(u.email, u.email, query, query');
    }
    FilterCongruent(u => MatchesSearch(u, query), u => MatchesSearch(u, query'), users);
  }

  /**
   * The rows the table renders. The table is bound to the whole list, so the search query,
   * although it is a parameter here, plays no part.
   */
  function TableRows(users: seq<User>, query: string): seq<User>
  {
    users
  }

  /** Whatever is typed in the search box, the table shows the same rows. */
  lemma SearchIgnoredByTable(users: seq<User>, query: string, query': string)
    ensures TableRows(users, query) == TableRows(users, query')
  {
  }

  /**
   * On the seed, a query that matches nobody still leaves both users on display, although
   * the search computes an empty list.
   */
  lemma DeadSearchExample()
    ensures var query := "nobody-matches-this-query";
      TableRows(InitialUsers(), query) == InitialUsers() && |TableRows(InitialUsers(), query)| == 2
      && FilteredUsers(InitialUsers(), query) == []
  {
    var query := "nobody-matches-this-query";
    forall u | u in InitialUsers()
      ensures !MatchesSearch(u, query)
    {
      assert |Lower(query)| > |Lower(u.name)| && |Lower(query)| > |Lower(u.email)|;
    }
    FilterDropsAll(u => MatchesSearch(u, query), InitialUsers());
  }

  /** The toasts of the `users` effect; the message text around the name and days is not modelled. */
  datatype Toast = ExpiryReminder(name: string, daysLeft: int) | UpgradePrompt(name: string)

  /** The two checks the effect makes for one user, in source order. */
  function ToastsFor(u: User): (r: seq<Toast>)
    ensures |r| <= 1
  {
    (if u.isPremium && u.premiumDaysLeft <= 7 then [ExpiryReminder(u.name, u.premiumDaysLeft)] else [])
    + (if !u.isPremium then [UpgradePrompt(u.name)] else [])
  }

  /** The reminder rule: expiring premium users get a reminder, free users an upgrade prompt, the rest nothing. */
  lemma ReminderRule(u: User)
    ensures u.isPremium && u.premiumDaysLeft <= 7 <==> ToastsFor(u) == [ExpiryReminder(u.name, u.premiumDaysLeft)]
    ensures !u.isPremium <==> ToastsFor(u) == [UpgradePrompt(u.name)]
    ensures u.isPremium && u.premiumDaysLeft > 7 <==> ToastsFor(u) == []
  {
    if !u.isPremium {
      assert ToastsFor(u)[0] == UpgradePrompt(u.name);
    }
  }

  /** All the toasts for a list, user by user. */
  function Toasts(users: seq<User>): (r: seq<Toast>)
    ensures |r| <= |users|
  {
    if users == [] then [] else ToastsFor(users[0]) + Toasts(users[1..])
  }

  lemma {:induction false} ToastsAppend(a: seq<User>, b: seq<User>)
    ensures Toasts(a + b) == Toasts(a) + Toasts(b)
  {
    if a == [] {
      assert a + b == b;
    } else {
      assert (a + b)[0] == a[0] && (a + b)[1..] == a[1..] + b;
      ToastsAppend(a[1..], b);
    }
  }

  /** The effect's `forEach`: one pass over the list, raising the toasts of each user in turn. */
  method EmitToasts(users: seq<User>) returns (toasts: seq<Toast>)
    ensures toasts == Toasts(users)
  {
    toasts := [];
    for i := 0 to |users|
      invariant toasts == Toasts(users[..i])
    {
      if users[i].isPremium && users[i].premiumDaysLeft <= 7 {
        toasts := toasts + [ExpiryReminder(users[i].name, users[i].premiumDaysLeft)];
      }
      if !users[i].isPremium {
        toasts := toasts + [UpgradePrompt(users[i].name)];
      }
      ToastsAppend(users[..i], [users[i]]);
      assert users[..i + 1] == users[..i] + [users[i]];
    }
    assert users[..|users|] == users;
  }

  predicate IsExpiring(u: User) { u.isPremium && u.premiumDaysLeft <= 7 }

  /** One toast per free user plus one per premium user with at most seven days left. */
  lemma {:induction false} ToastCount(users: seq<User>)
    ensures |Toasts(users)| == TotalFreeUsers(users) + Count(IsExpiring, users)
  {
    if users != [] {
      ToastCount(users[1..]);
    }
  }

  /** Once every user is premium (as after a grant), no upgrade prompt is raised. */
  lemma {:induction false} NoUpgradePromptWhenAllPremium(users: seq<User>)
    requires forall u :: u in users ==> u.isPremium
    ensures forall t :: t in Toasts(users) ==> t.ExpiryReminder?
  {
    if users != [] {
      assert users[0] in users;
      assert forall u :: u in users[1..] ==> u in users;
      NoUpgradePromptWhenAllPremium(users[1..]);
    }
  }

  /** The seed list loaded by the page. */
  function InitialUsers(): seq<User>
  {
    [ User(1, "Alice", "alice@example.com", false, 19723, 0),
      User(2, "Bob", "bob@example.com", true, 19732, 15) ]
  }

  /** On load Alice (free) is prompted to upgrade and Bob (15 days left) gets nothing. */
  lemma SeedToasts()
    ensures Toasts(InitialUsers()) == [UpgradePrompt("Alice")]
  {
    var s := InitialUsers();
    assert s[1..] == [s[1]] && s[1..][1..] == [];
  }

  /**
   * The page state. Each update replaces the list and returns the toasts the `users` effect
   * raises for the new list.
   */
  class SubscriptionPage {
    var users: seq<User>
    var searchQuery: string

    constructor ()
      ensures users == InitialUsers() && searchQuery == ""
    {
      users := InitialUsers();
      searchQuery := "";
    }

    /** The rows on display: the whole list, whatever the search box holds. */
    function DisplayedRows(): seq<User>
      reads this
    {
      TableRows(users, searchQuery)
    }

    /**
     * The rows the search box evidently means to show: exactly the users that match the
     * query, in list order, and every user when the box is empty.
     */
    function SearchedRows(): (r: seq<User>)
      reads this
      ensures forall u :: u in r <==> u in users && MatchesSearch(u, searchQuery)
      ensures IsSubsequence(r, users)
      ensures searchQuery == "" ==> r == users
    {
      FilteredUsersIsSubsequence(users, searchQuery);
      if searchQuery == "" then EmptySearchKeepsAll(users); FilteredUsers(users, searchQuery)
      else FilteredUsers(users, searchQuery)
    }

    method TogglePremiumStatus(id: int) returns (toasts: seq<Toast>)
      modifies this
      ensures users == TogglePremium(old(users), id) && searchQuery == old(searchQuery)
      ensures toasts == Toasts(users)
    {
      users := TogglePremium(users, id);
      toasts := EmitToasts(users);
    }

    method SetSubscriptionDays(id: int, days: int, today: int) returns (toasts: seq<Toast>)
      modifies this
      ensures users == SetSubscription(old(users), id, days, today) && searchQuery == old(searchQuery)
      ensures toasts == Toasts(users)
    {
      users := SetSubscription(users, id, days, today);
      toasts := EmitToasts(users);
    }

    /** The "Grant 30 Days Premium to New Users" button passes 30. */
    method GrantPremiumToNewUsers(days: int, today: int) returns (toasts: seq<Toast>)
      modifies this
      ensures users == GrantPremium(old(users), days, today) && searchQuery == old(searchQuery)
      ensures TotalFreeUsers(users) == 0
      ensures toasts == Toasts(users)
      ensures forall t :: t in toasts ==> t.ExpiryReminder?
    {
      users := GrantPremium(users, days, today);
      GrantLeavesNoFreeUsers(old(users), days, today);
      NoUpgradePromptWhenAllPremium(users);
      toasts := EmitToasts(users);
    }
  }
}
