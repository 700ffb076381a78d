/**
 * The project list page: the listings filtered by the selected stage. The
 * search box's text is held but not applied to the list.
 */
module ProjectsPage {
  import opened Common
  import Overflow

  /** A listing as the page holds it (the fields the filter and the card counters read). */
  datatype Listing = Listing(id: string, stage: string, tags: seq<string>, members: seq<string>)

  /** The selector's value that shows every stage. */
  const All := "all"

  /** `filteredProjects`: every listing for "all", else the listings whose stage is exactly the selection. */
  function Listed(listings: seq<Listing>, query: string, stage: string): (r: seq<Listing>)
    ensures Subsequence(r, listings)
    ensures stage == All ==> r == listings
    ensures stage != All ==> forall p :: p in r <==> p in listings && p.stage == stage
    ensures forall p: Listing :: p.stage == stage ==> multiset(r)[p] == multiset(listings)[p]
  {
    FilterCounts(listings, (p: Listing) => stage == All || p.stage == stage);
    Filter(listings, (p: Listing) => stage == All || p.stage == stage)
  }

  /** The search text has no effect on the list. */
  lemma QueryIgnored(listings: seq<Listing>, q1: string, q2: string, stage: string)
    ensures Listed(listings, q1, stage) == Listed(listings, q2, stage)
  {
  }

  /** The page's six sample listings (stages, tags and members as the page defines them). */
  const Samples: seq<Listing> := [
    Listing("proj1", "prototype", ["Climate Tech", "IoT", "Data Visualization", "React", "Python"],
            ["Emily Chen", "Sarah Johnson", "Michael Rodriguez"]),
    Listing("proj2", "mvp", ["AI", "Education", "NLP", "Mobile", "React Native"], ["David Kim", "Jessica Lee"]),
    Listing("proj3", "idea", ["SaaS", "Productivity", "Fintech", "Vue.js", "Node.js"], ["Thomas Wright"]),
    Listing("proj4", "prototype", ["Healthcare", "AI", "Open Source", "Social Impact", "React"],
            ["Emily Chen", "Michael Rodriguez", "Jessica Lee", "Sarah Johnson"]),
    Listing("proj5", "mvp", ["Marketplace", "Food Tech", "Mobile", "Flutter", "Firebase"], ["David Kim", "Thomas Wright"]),
    Listing("proj6", "launched", ["Education", "Dev Tools", "Community", "JavaScript", "WebRTC"],
            ["Emily Chen", "Sarah Johnson", "Jessica Lee"])]

  /** On the sample data, "prototype" lists proj1 and proj4. */
  lemma SamplesByStage()
    ensures Listed(Samples, "", "prototype") == [Samples[0], Samples[3]]
  {
    ListedOfSix(Samples, "prototype");
  }

  /** Six listings of which only the first and fourth have the stage. */
  lemma {:induction false} ListedOfSix(s: seq<Listing>, stage: string)
    requires |s| == 6 && stage != All
    requires s[0].stage == stage && s[3].stage == stage
    requires s[1].stage != stage && s[2].stage != stage && s[4].stage != stage && s[5].stage != stage
    ensures Listed(s, "", stage) == [s[0], s[3]]
  {
    ListedLastThree(s, stage);
    ListedStep(s, 2, stage);
    ListedStep(s, 1, stage);
    ListedStep(s, 0, stage);
  }

  /** The last three of those six list only the first of them. */
  lemma ListedLastThree(s: seq<Listing>, stage: string)
    requires |s| == 6 && stage != All
    requires s[3].stage == stage && s[4].stage != stage && s[5].stage != stage
    ensures Listed(s[3..], "", stage) == [s[3]]
  {
    ListedStep(s, 5, stage);
    ListedStep(s, 4, stage);
    ListedStep(s, 3, stage);
  }

  /** The listing of a suffix, by its first listing. */
  lemma ListedStep(s: seq<Listing>, k: nat, stage: string)
    requires k < |s|
    ensures Listed(s[k..], "", stage)
            == (if stage == All || s[k].stage == stage then [s[k]] else []) + Listed(s[k + 1..], "", stage)
  {
    assert s[k..] == [s[k]] + s[k + 1..];
    FilterCons(s[k], s[k + 1..], (p: Listing) => stage == All || p.stage == stage);
  }

  /** The stage must match exactly: "Prototype" lists nothing. */
  lemma SamplesCaseSensitive()
    ensures Listed(Samples, "", "Prototype") == []
  {
  }

  /** On the sample data every card shows four tags and "+1 more"; only proj4 shows a "+1" member counter. */
  lemma SamplesCounters()
    ensures forall i :: 0 <= i < |Samples| ==> |Overflow.Shown(Samples[i].tags, Overflow.TagLimit)| == 4
                                               && Overflow.More(Samples[i].tags, Overflow.TagLimit) == 1
    ensures Overflow.More(Samples[3].members, Overflow.MemberLimit) == 1
    ensures forall i :: 0 <= i < |Samples| && i != 3 ==> Overflow.More(Samples[i].members, Overflow.MemberLimit) == 0
  {
  }
}
