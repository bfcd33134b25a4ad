/**
  app/history/page.tsx: a fixed list of activities (its state has no setter, so it is a
  constant here) and the search over it.
*/
module HistoryPage {
  import opened Text
  import opened Lists
  import opened ActivityLog

  const Activities: seq<Activity> := [
    Activity(1, "Add Product", "John Doe", "Added new product: Business Laptop", "2024-03-20 10:30"),
    Activity(2, "Update Stock", "Jane Smith", "Updated Wireless Mouse stock from 45 to 95 " + "(+50 units)", "2024-03-20 09:15"),
    Activity(3, "Delete Product", "John Doe", "Deleted product: Old Keyboard Model", "2024-03-19 15:45"),
    Activity(4, "Create Category", "Admin User", "Created new category: Automotive", "2024-03-19 14:20"),
    Activity(5, "Update Product", "Jane Smith", "Updated Standing Desk price from " + "$349.99 to $329.99", "2024-03-19 11:30"),
    Activity(6, "Update Stock", "John Doe", "Updated Business Laptop stock from " + "12 to 8 (-4 units)", "2024-03-18 16:45")
  ]

  /** The search test: action, details or user contains the term, ignoring case. */
  function MatchesActivity(term: string): Activity -> bool {
    (a: Activity) => MatchesTerm(a.action, term) || MatchesTerm(a.details, term) || MatchesTerm(a.user, term)
  }

  /** `filteredActivities` */
  function FilteredActivities(acts: seq<Activity>, term: string): (r: seq<Activity>)
    ensures |r| <= |acts| && IsSubsequence(r, acts)
    ensures forall a :: a in r <==> a in acts && MatchesActivity(term)(a)
  {
    Filter(acts, MatchesActivity(term))
  }

  /** An empty search shows every activity. */
  lemma EmptySearchShowsAll(acts: seq<Activity>)
    ensures FilteredActivities(acts, "") == acts
  {
    forall a | a in acts ensures MatchesActivity("")(a) {
      EmptyTermMatches(a.action);
    }
    FilterKeepsAll(acts, MatchesActivity(""));
  }

  /** "Showing {shown} of {total} activities", rendered only when there are activities. */
  datatype ShowingNote = NoNote | Showing(shown: nat, total: nat)

  function Note(term: string): (n: ShowingNote)
    ensures n.Showing? ==> n.shown <= n.total && n.total == |Activities|
    ensures n.Showing? ==> n.shown == |FilteredActivities(Activities, term)|
    ensures n.NoNote? <==> Activities == []
  {
    if |Activities| > 0 then Showing(|FilteredActivities(Activities, term)|, |Activities|) else NoNote
  }
}
