/**
 * The support-groups page: three college groups and five interest groups,
 * a set of joined group ids that join/leave toggles, and the tab filter.
 */
module Groups {
  import opened Seqs

  datatype GroupKind = College | Interest

  /** A group card; descriptions, icons and colours are presentational and left out. */
  datatype Group = Group(id: int, name: string, members: int, kind: GroupKind, affiliation: string)

  const CollegeGroups: seq<Group> := [
    Group(1, "MIT Mental Health Support", 234, College, "MIT"),
    Group(2, "Stanford Wellness Circle", 189, College, "Stanford"),
    Group(3, "Harvard Study Stress " + "Management", 156, College, "Harvard")
  ]

  const InterestGroups: seq<Group> := [
    Group(4, "Mindfulness & Meditation", 567, Interest, "Wellness"),
    Group(5, "Creative Therapy", 234, Interest, "Creative"),
    Group(6, "Gaming & Mental Health", 345, Interest, "Gaming"),
    Group(7, "Coffee & Conversations", 178, Interest, "Social"),
    Group(8, "Music Therapy Circle", 289, Interest, "Music")
  ]

  const AllGroups: seq<Group> := CollegeGroups + InterestGroups

  const InitiallyJoined: set<int> := {1, 3, 5}

  /** `handleJoinLeave`'s new set: the id changes side, every other id stays where it was. */
  function Toggled(joined: set<int>, id: int): (r: set<int>)
    ensures id in r <==> id !in joined
    ensures forall x :: x != id ==> (x in r <==> x in joined)
    ensures |r| == if id in joined then |joined| - 1 else |joined| + 1
  {
    if id in joined then joined - {id} else joined + {id}
  }

  /** Joining and then leaving (or leaving and then joining) restores the set. */
  lemma ToggleTwice(joined: set<int>, id: int)
    ensures Toggled(Toggled(joined, id), id) == joined
  {
    var once := Toggled(joined, id);
    var twice := Toggled(once, id);
    forall x ensures x in twice <==> x in joined {
      if x == id {
        assert x in twice <==> x !in once;
      }
    }
  }

  predicate IsJoined(joined: set<int>, g: Group) {
    g.id in joined
  }

  /**
   * `getFilteredGroups`: the college list, the interest list, the joined
   * groups in all-groups order, or, for any other tab, all groups.
   */
  function FilteredGroups(tab: string, joined: set<int>): (r: seq<Group>)
    ensures tab == "college" ==> r == CollegeGroups
    ensures tab == "interest" ==> r == InterestGroups
    ensures tab !in {"college", "interest", "joined"} ==> r == AllGroups
    ensures tab == "joined" ==> IsSubsequence(r, AllGroups) && forall g :: g in r <==> g in AllGroups && g.id in joined
  {
    if tab == "college" then CollegeGroups
    else if tab == "interest" then InterestGroups
    else if tab == "joined" then
      var keep := (g: Group) => IsJoined(joined, g);
      FilterIsSubsequence(AllGroups, keep);
      forall g ensures g in Filter(AllGroups, keep) <==> g in AllGroups && g.id in joined {
        FilterMembership(AllGroups, keep, g);
      }
      Filter(AllGroups, keep)
    else AllGroups
  }

  /** The page's state. */
  class GroupsPage {
    var activeTab: string
    var joinedGroups: set<int>

    constructor()
      ensures activeTab == "all" && joinedGroups == InitiallyJoined
    {
      activeTab, joinedGroups := "all", InitiallyJoined;
    }

    /** `handleJoinLeave`. */
    method HandleJoinLeave(groupId: int)
      modifies this`joinedGroups
      ensures joinedGroups == Toggled(old(joinedGroups), groupId)
    {
      var updated := joinedGroups;
      if groupId in updated {
        updated := updated - {groupId};
      } else {
        updated := updated + {groupId};
      }
      joinedGroups := updated;
    }
  }
}
