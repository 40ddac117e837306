// The help page: which FAQ entries are unfolded, and how the entries are
// grouped by category for display (the `reduce` into an object whose keys
// come out, in insertion order, as the page's sections).
module Help {
  import opened Strings
  import opened Lists

  datatype Faq = Faq(question: string, answer: string, category: string)

  /** The key of an entry in its section, `${category}-${index}`. */
  function ItemId(category: string, index: nat): string {
    category + "-" + NatToString(index)
  }

  // ---------------------------------------------------------------------
  // Grouping

  datatype Group = Group(category: string, questions: seq<Faq>)

  function FindGroup(groups: seq<Group>, c: string): (r: nat)
    ensures r <= |groups|
    ensures r < |groups| ==> groups[r].category == c
    ensures forall i :: 0 <= i < r ==> groups[i].category != c
    decreases |groups|
  {
    if |groups| == 0 then 0
    else if groups[0].category == c then 0
    else 1 + FindGroup(groups[1..], c)
  }

  /** One step of the `reduce`: a new category opens a section at the end, a known one grows by the entry. */
  function AddToGroups(groups: seq<Group>, f: Faq): (r: seq<Group>) {
    var i := FindGroup(groups, f.category);
    if i == |groups| then groups + [Group(f.category, [f])]
    else groups[i := Group(f.category, groups[i].questions + [f])]
  }

  /** `groupedFaqs`, as `Object.entries` lists it. */
  function GroupedFaqs(faqs: seq<Faq>): (r: seq<Group>)
    decreases |faqs|
  {
    if |faqs| == 0 then [] else AddToGroups(GroupedFaqs(faqs[..|faqs| - 1]), faqs[|faqs| - 1])
  }

  function InCategory(c: string): Faq -> bool {
    (f: Faq) => f.category == c
  }

  predicate DistinctCategories(groups: seq<Group>) {
    forall i, j :: 0 <= i < j < |groups| ==> groups[i].category != groups[j].category
  }

  /** Every section holds exactly the entries of its category, in their order. */
  predicate SectionsHold(groups: seq<Group>, faqs: seq<Faq>) {
    forall i :: 0 <= i < |groups| ==> groups[i].questions == Filter(faqs, InCategory(groups[i].category))
  }

  /** Every entry's category has a section, and no section is empty. */
  predicate SectionsCover(groups: seq<Group>, faqs: seq<Faq>) {
    (forall k :: 0 <= k < |faqs| ==> FindGroup(groups, faqs[k].category) < |groups|) &&
    (forall i :: 0 <= i < |groups| ==> |groups[i].questions| > 0)
  }

  predicate GroupsOf(groups: seq<Group>, faqs: seq<Faq>) {
    DistinctCategories(groups) && SectionsHold(groups, faqs) && SectionsCover(groups, faqs)
  }

  lemma AddKeepsDistinct(groups: seq<Group>, f: Faq)
    requires DistinctCategories(groups)
    ensures DistinctCategories(AddToGroups(groups, f))
  {
  }

  lemma AddKeepsContents(groups: seq<Group>, faqs: seq<Faq>, f: Faq)
    requires DistinctCategories(groups) && SectionsHold(groups, faqs) && SectionsCover(groups, faqs)
    ensures SectionsHold(AddToGroups(groups, f), faqs + [f])
  {
    var r := AddToGroups(groups, f);
    var n := FindGroup(groups, f.category);
    if n == |groups| {
      // A new section: no earlier entry had this category.
      assert forall k :: 0 <= k < |faqs| ==> faqs[k].category != f.category;
      FilterNone(faqs, InCategory(f.category));
    }
    forall i | 0 <= i < |r| ensures r[i].questions == Filter(faqs + [f], InCategory(r[i].category)) {
      FilterAppend(faqs, f, InCategory(r[i].category));
      if i != n {
        assert r[i] == groups[i];
      }
    }
  }

  lemma AddKeepsCover(groups: seq<Group>, faqs: seq<Faq>, f: Faq)
    requires DistinctCategories(groups) && SectionsCover(groups, faqs)
    ensures SectionsCover(AddToGroups(groups, f), faqs + [f])
  {
    var r := AddToGroups(groups, f);
    var all := faqs + [f];
    forall k | 0 <= k < |all| ensures FindGroup(r, all[k].category) < |r| {
      var c := all[k].category;
      var j := if k < |faqs| then FindGroup(groups, c) else FindGroup(groups, f.category);
      if k < |faqs| {
        assert all[k] == faqs[k];
      }
      FoundAt(r, c, if j < |groups| then j else |groups|);
    }
  }

  /** A section with that category exists at `j`, so the search stops there at the latest. */
  lemma FoundAt(groups: seq<Group>, c: string, j: nat)
    requires j < |groups| && groups[j].category == c
    ensures FindGroup(groups, c) <= j
    decreases j
  {
    if j > 0 && groups[0].category != c {
      FoundAt(groups[1..], c, j - 1);
    }
  }

  lemma AddKeepsGroups(groups: seq<Group>, faqs: seq<Faq>, f: Faq)
    requires GroupsOf(groups, faqs)
    ensures GroupsOf(AddToGroups(groups, f), faqs + [f])
  {
    AddKeepsDistinct(groups, f);
    AddKeepsContents(groups, faqs, f);
    AddKeepsCover(groups, faqs, f);
  }

  lemma GroupStep(faqs: seq<Faq>)
    requires |faqs| > 0
    requires GroupsOf(GroupedFaqs(faqs[..|faqs| - 1]), faqs[..|faqs| - 1])
    ensures GroupsOf(GroupedFaqs(faqs), faqs)
  {
    var init := faqs[..|faqs| - 1];
    InitLast(faqs);
    AddKeepsGroups(GroupedFaqs(init), init, faqs[|faqs| - 1]);
  }

  /** `groupedFaqs` has one section per category, each holding that category's entries in order. */
  lemma {:induction false} GroupedFaqsSpec(faqs: seq<Faq>)
    ensures GroupsOf(GroupedFaqs(faqs), faqs)
    decreases |faqs|
  {
    if |faqs| > 0 {
      GroupedFaqsSpec(faqs[..|faqs| - 1]);
      GroupStep(faqs);
    }
  }

  /** Some entry before position `k` has category `c`. */
  ghost predicate AppearsBefore(faqs: seq<Faq>, c: string, k: nat) {
    exists k' :: 0 <= k' < k && k' < |faqs| && faqs[k'].category == c
  }

  /** Sections come in order of their categories' first appearance. */
  ghost predicate FirstAppearanceOrder(groups: seq<Group>, faqs: seq<Faq>) {
    forall i, j, k :: 0 <= i < j < |groups| && 0 <= k < |faqs| && faqs[k].category == groups[j].category ==>
      AppearsBefore(faqs, groups[i].category, k)
  }

  /** A section holds at least one entry, so its category occurs in the list. */
  lemma SectionAppears(groups: seq<Group>, faqs: seq<Faq>, i: nat)
    requires SectionsHold(groups, faqs) && SectionsCover(groups, faqs) && i < |groups|
    ensures AppearsBefore(faqs, groups[i].category, |faqs|)
  {
    var q := groups[i].questions;
    assert q == Filter(faqs, InCategory(groups[i].category)) && |q| > 0;
    assert q[0] in faqs && q[0].category == groups[i].category;
    var k' :| 0 <= k' < |faqs| && faqs[k'] == q[0];
  }

  lemma AddKeepsOrder(groups: seq<Group>, faqs: seq<Faq>, f: Faq)
    requires GroupsOf(groups, faqs) && FirstAppearanceOrder(groups, faqs)
    ensures FirstAppearanceOrder(AddToGroups(groups, f), faqs + [f])
  {
    var r := AddToGroups(groups, f);
    var all := faqs + [f];
    var n := FindGroup(groups, f.category);
    forall i, j, k | 0 <= i < j < |r| && 0 <= k < |all| && all[k].category == r[j].category
      ensures AppearsBefore(all, r[i].category, k)
    {
      assert r[i].category == groups[i].category;
      if k == |faqs| {
        SectionAppears(groups, faqs, i);
        var k' :| 0 <= k' < |faqs| && faqs[k'].category == groups[i].category;
        assert all[k'] == faqs[k'];
      } else {
        assert all[k] == faqs[k];
        if j < |groups| {
          assert r[j].category == groups[j].category;
          var k' :| 0 <= k' < k && k' < |faqs| && faqs[k'].category == groups[i].category;
          assert all[k'] == faqs[k'];
        } else {
          // a new section: no earlier entry had its category
          assert false;
        }
      }
    }
  }

  /** The sections of `groupedFaqs` come in order of first appearance. */
  lemma {:induction false} GroupedFaqsOrder(faqs: seq<Faq>)
    ensures FirstAppearanceOrder(GroupedFaqs(faqs), faqs)
    decreases |faqs|
  {
    if |faqs| > 0 {
      var init := faqs[..|faqs| - 1];
      GroupedFaqsOrder(init);
      GroupedFaqsSpec(init);
      InitLast(faqs);
      AddKeepsOrder(GroupedFaqs(init), init, faqs[|faqs| - 1]);
    }
  }

  /** How many entries the sections hold together. */
  function Size(groups: seq<Group>): nat
    decreases |groups|
  {
    if |groups| == 0 then 0 else Size(groups[..|groups| - 1]) + |groups[|groups| - 1].questions|
  }

  lemma {:induction false} SizeUpdate(groups: seq<Group>, i: nat, g: Group)
    requires i < |groups|
    ensures Size(groups[i := g]) + |groups[i].questions| == Size(groups) + |g.questions|
    decreases |groups|
  {
    var n := |groups|;
    var u := groups[i := g];
    if i == n - 1 {
      assert u[..n - 1] == groups[..n - 1];
    } else {
      assert u[..n - 1] == groups[..n - 1][i := g];
      SizeUpdate(groups[..n - 1], i, g);
    }
  }

  /** Each step of the `reduce` places exactly one more entry. */
  lemma AddGrowsSize(groups: seq<Group>, f: Faq)
    ensures Size(AddToGroups(groups, f)) == Size(groups) + 1
  {
    var i := FindGroup(groups, f.category);
    if i == |groups| {
      assert (groups + [Group(f.category, [f])])[..|groups|] == groups;
    } else {
      SizeUpdate(groups, i, Group(f.category, groups[i].questions + [f]));
    }
  }

  /** The sections hold as many entries as the list, none lost and none repeated. */
  lemma {:induction false} GroupedFaqsSize(faqs: seq<Faq>)
    ensures Size(GroupedFaqs(faqs)) == |faqs|
    decreases |faqs|
  {
    if |faqs| > 0 {
      GroupedFaqsSize(faqs[..|faqs| - 1]);
      AddGrowsSize(GroupedFaqs(faqs[..|faqs| - 1]), faqs[|faqs| - 1]);
    }
  }

  class HelpPage {
    var openItems: seq<string>

    constructor()
      ensures openItems == []
    {
      openItems := [];
    }

    method ToggleItem(id: string)
      modifies this
      ensures openItems == Toggle(old(openItems), id)
    {
      openItems := Toggle(openItems, id);
    }

    predicate IsOpen(category: string, index: nat)
      reads this
    {
      ItemId(category, index) in openItems
    }
  }
}
