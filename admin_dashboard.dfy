/**
 * The admin dashboard's derived figures: four counters over the fetched
 * collections and the first few projects and messages.
 */
module AdminDashboard {
  import opened Records
  import opened Collections
  import opened DataContext

  const InProgress := "In Progress"
  /** How many projects and messages the "recent" panels show. */
  const RecentCount := 5

  datatype Stats = Stats(totalServices: nat, activeProjects: nat, teamMembers: nat, newMessages: nat)

  /** The four counter cards. */
  function DashboardStats(services: seq<Record>, projects: seq<Record>, team: seq<Record>, contacts: seq<Record>): (s: Stats)
    ensures s.totalServices == |services| && s.teamMembers == |team|
    ensures s.activeProjects == |Filter(projects, KeyIs(StatusKey, InProgress))|
    ensures s.newMessages == |Filter(contacts, KeyIs(StatusKey, Unread))|
    ensures s.activeProjects <= |projects| && s.newMessages <= |contacts|
    ensures s.activeProjects == 0 <==> forall p :: p in projects ==> !Matches(p, StatusKey, InProgress)
    ensures s.newMessages == 0 <==> forall c :: c in contacts ==> !Matches(c, StatusKey, Unread)
    ensures s.newMessages == |contacts| <==> forall c :: c in contacts ==> Matches(c, StatusKey, Unread)
  {
    Stats(
      |services|,
      CountWhere(projects, KeyIs(StatusKey, InProgress)),
      |team|,
      CountWhere(contacts, KeyIs(StatusKey, Unread)))
  }

  /** The counters add up over a split of the list: each record is counted where it stands. */
  lemma CountsAdd(xs: seq<Record>, ys: seq<Record>, status: string)
    ensures CountWhere(xs + ys, KeyIs(StatusKey, status))
      == CountWhere(xs, KeyIs(StatusKey, status)) + CountWhere(ys, KeyIs(StatusKey, status))
  {
    FilterConcat(xs, ys, KeyIs(StatusKey, status));
  }

  /** `xs.slice(0, 5)`: the first five, or all of them when there are fewer. */
  function Recent(xs: seq<Record>): (r: seq<Record>)
    ensures |r| == (if |xs| < RecentCount then |xs| else RecentCount)
    ensures forall i :: 0 <= i < |r| ==> r[i] == xs[i]
  {
    Take(xs, RecentCount)
  }
}
