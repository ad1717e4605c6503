/**
 * The resources library: four fixed tabs of videos, audio, guides and
 * FAQs, filtered by a case-insensitive substring search over each item's
 * title and description.
 */
module Resources {
  import opened Wrappers
  import opened Seqs
  import opened Text

  /** A library item; the emoji thumbnail is presentational and left out. */
  datatype Resource = Resource(title: string, description: string, duration: string, category: string)

  const Videos: seq<Resource> := [
    Resource(
      "Managing Exam Stress",
      "Learn effective techniques " + "to handle academic " + "pressure",
      "12 min", "Academic"),
    Resource(
      "Breathing Exercises for " + "Anxiety",
      "Simple breathing " + "techniques to calm your " + "mind",
      "8 min", "Wellness"),
    Resource(
      "Building Healthy Relationships",
      "Navigate friendships and " + "social connections",
      "15 min", "Social"),
    Resource(
      "Sleep Hygiene for Students",
      "Improve your sleep quality " + "and energy levels",
      "10 min", "Health")
  ]

  const Audio: seq<Resource> := [
    Resource(
      "Guided Meditation for " + "Beginners",
      "A gentle introduction to " + "mindfulness practice",
      "20 min", "Meditation"),
    Resource(
      "Study Focus Background Sounds",
      "Ambient sounds to enhance " + "concentration",
      "60 min", "Focus"),
    Resource(
      "Progressive Muscle Relaxation",
      "Release physical tension " + "and stress",
      "25 min", "Relaxation"),
    Resource(
      "Confidence Building " + "Affirmations",
      "Positive affirmations for " + "self-esteem",
      "15 min", "Confidence")
  ]

  const Guides: seq<Resource> := [
    Resource(
      "Complete Guide to Time " + "Management",
      "Master your schedule and " + "boost productivity",
      "15 min read", "Productivity"),
    Resource(
      "Understanding Depression " + "in Students",
      "Recognize signs and learn " + "coping strategies",
      "12 min read", "Mental Health"),
    Resource(
      "Building Resilience " + "Through Challenges",
      "Develop mental strength " + "and adaptability",
      "18 min read", "Resilience"),
    Resource(
      "Nutrition for Mental Wellness",
      "How food affects your mood " + "and mind",
      "10 min read", "Nutrition")
  ]

  const Faqs: seq<Resource> := [
    Resource(
      "How do I know if I need " + "professional help?",
      "Signs that indicate you " + "should seek counseling",
      "3 min read", "Help"),
    Resource(
      "Is my information really " + "confidential?",
      "Understanding privacy and " + "data protection",
      "2 min read", "Privacy"),
    Resource(
      "How to support a friend in " + "crisis?",
      "Being there for someone " + "who's struggling",
      "5 min read", "Support"),
    Resource(
      "What if I can't afford " + "counseling?",
      "Free and low-cost mental " + "health resources",
      "4 min read", "Resources")
  ]

  /** `resources[activeTab]`: the tab's list, or nothing for a tab the library does not have. */
  function Catalogue(tab: string): (items: Option<seq<Resource>>)
    ensures items.Some? <==> tab in {"videos", "audio", "guides", "faqs"}
  {
    if tab == "videos" then Some(Videos)
    else if tab == "audio" then Some(Audio)
    else if tab == "guides" then Some(Guides)
    else if tab == "faqs" then Some(Faqs)
    else None
  }

  /** The search condition for an already lower-cased query. */
  function MatchesQuery(lowered: string): Resource -> bool {
    (r: Resource) => Contains(Lower(r.title), lowered) || Contains(Lower(r.description), lowered)
  }

  /** The items of one tab that match the query, in the tab's order. */
  function Search(items: seq<Resource>, query: string): (r: seq<Resource>)
    ensures IsSubsequence(r, items)
    ensures forall x :: x in r <==> x in items && MatchesQuery(Lower(query))(x)
    ensures forall x :: multiset(r)[x] == if MatchesQuery(Lower(query))(x) then multiset(items)[x] else 0
  {
    var keep := MatchesQuery(Lower(query));
    FilterIsSubsequence(items, keep);
    forall x ensures x in Filter(items, keep) <==> x in items && keep(x) {
      FilterMembership(items, keep, x);
    }
    forall x ensures multiset(Filter(items, keep))[x] == if keep(x) then multiset(items)[x] else 0 {
      FilterMultiplicity(items, keep, x);
    }
    Filter(items, keep)
  }

  /** `filteredResources`: the tab's matching items, or `undefined` for an unknown tab. */
  function FilteredResources(tab: string, query: string): (r: Option<seq<Resource>>)
    ensures r.Some? <==> Catalogue(tab).Some?
    ensures r.Some? ==> IsSubsequence(r.value, Catalogue(tab).value)
  {
    match Catalogue(tab)
    case Some(items) => Some(Search(items, query))
    case None => None
  }

  /** The empty query matches everything: the whole tab is shown. */
  lemma {:induction false} EmptyQueryShowsAll(items: seq<Resource>)
    ensures Search(items, "") == items
  {
    var keep := MatchesQuery(Lower(""));
    forall i | 0 <= i < |items| ensures keep(items[i]) {
      assert Lower("") == [];
      assert Contains(Lower(items[i].title), []) by {
        assert [] <= Lower(items[i].title);
      }
    }
    FilterKeepsAll(items, keep);
  }

  /** Upper-casing the query changes nothing: the search ignores case. */
  lemma UpperCasedQuery(items: seq<Resource>, query: string)
    ensures Search(items, Upper(query)) == Search(items, query)
  {
    LowerOfUpper(query);
  }

  /** Every item of every tab is found by its own title. */
  lemma {:induction false} FoundByTitle(items: seq<Resource>, x: Resource)
    requires x in items
    ensures x in Search(items, x.title)
  {
    var lowered := Lower(x.title);
    assert Contains(lowered, lowered) by {
      assert lowered <= lowered;
    }
  }
}
