/**
 * The portfolio page (pages/Portfolio.tsx): a fixed list of projects, a
 * row of category buttons and a selected category that narrows the grid.
 * The category "Todos" (all) shows every project; any other shows, in list
 * order, the projects of that category.
 */
module Portfolio {

  datatype Project = Project(
    id: nat,
    title: string,
    client: string,
    category: string,
    image: string,
    desc: string)

  /** The category that stands for "no filtering". */
  const AllCategory: string := "Todos"

  /** The filter buttons, in display order. */
  const Categories: seq<string> := ["Todos", "IA", "Branding", "Dados", "Web"]

  const Fintech := Project(1, "Fintech Evolution", "NeoBank", "IA",
    "https://picsum.photos/seed/p1/800/600", "Assistente virtual com 98% de precisão.")
  const Rebranding := Project(2, "Rebranding Global", "EcoCorp", "Branding",
    "https://picsum.photos/seed/p2/800/600", "Identidade visual para 12 países.")
  const DataLake := Project(3, "Data Lake View", "RetailGiant", "Dados",
    "https://picsum.photos/seed/p3/800/600", "Dashboard preditivo de vendas.")
  const Commerce := Project(4, "Immersive Commerce", "FashionBrand", "Web",
    "https://picsum.photos/seed/p4/800/600", "E-commerce 3D interativo.")
  const Marketing := Project(5, "Automated Marketing", "SaaS Co", "IA",
    "https://picsum.photos/seed/p5/800/600", "Lead scoring automatizado.")
  const Campaign := Project(6, "Campaign Viral", "DrinkEnergy", "Branding",
    "https://picsum.photos/seed/p6/800/600", "Campanha com influencers IA.")

  /** The fixed project list, in display order. */
  const Projects: seq<Project> := [Fintech, Rebranding, DataLake, Commerce, Marketing, Campaign]

  // ---------------------------------------------------------------------
  // The filter
  // ---------------------------------------------------------------------

  /** The projects of `ps` whose category is `c`, in their original order
      (the array filter with a category-equality test). */
  function KeepCategory(ps: seq<Project>, c: string): (r: seq<Project>)
    ensures |r| <= |ps|
    ensures forall i :: 0 <= i < |r| ==> r[i].category == c
    decreases ps
  {
    if ps == [] then []
    else (if ps[0].category == c then [ps[0]] else []) + KeepCategory(ps[1..], c)
  }

  /** A project is kept iff it is in the list and of category `c`. */
  lemma {:induction false} KeepCategoryMembers(ps: seq<Project>, c: string)
    ensures forall p :: p in KeepCategory(ps, c) <==> p in ps && p.category == c
    decreases ps
  {
    if ps != [] {
      KeepCategoryMembers(ps[1..], c);
      assert ps == [ps[0]] + ps[1..];
    }
  }

  /** The projects the grid shows for the selected category `filter`. */
  function FilteredProjects(filter: string, ps: seq<Project>): (r: seq<Project>)
    ensures filter == AllCategory ==> r == ps
    ensures filter != AllCategory ==> forall p :: p in r <==> p in ps && p.category == filter
    ensures |r| <= |ps|
  {
    if filter == AllCategory then ps
    else KeepCategoryMembers(ps, filter); KeepCategory(ps, filter)
  }

  /** `a` is what is left of `b` after deleting some of its elements:
      the relative order of what is kept is the order in `b`. */
  predicate IsSubsequence<T(==)>(a: seq<T>, b: seq<T>)
    decreases b
  {
    if b == [] then a == []
    else IsSubsequence(a, b[1..]) || (a != [] && a[0] == b[0] && IsSubsequence(a[1..], b[1..]))
  }

  lemma {:induction false} KeepCategoryIsSubsequence(ps: seq<Project>, c: string)
    ensures IsSubsequence(KeepCategory(ps, c), ps)
    decreases ps
  {
    if ps != [] {
      KeepCategoryIsSubsequence(ps[1..], c);
      var rest := KeepCategory(ps[1..], c);
      if ps[0].category == c {
        assert KeepCategory(ps, c) == [ps[0]] + rest;
        assert ([ps[0]] + rest)[1..] == rest;
      } else {
        assert KeepCategory(ps, c) == rest;
      }
    }
  }

  lemma {:induction false} SubsequenceOfItself<T>(s: seq<T>)
    ensures IsSubsequence(s, s)
    decreases s
  {
    if s != [] {
      SubsequenceOfItself(s[1..]);
    }
  }

  /** Whatever the selected category, the grid shows a subsequence of the
      project list: nothing is added, reordered or duplicated. */
  lemma FilteredIsSubsequence(filter: string, ps: seq<Project>)
    ensures IsSubsequence(FilteredProjects(filter, ps), ps)
  {
    if filter == AllCategory {
      SubsequenceOfItself(ps);
    } else {
      KeepCategoryIsSubsequence(ps, filter);
    }
  }

  /** Each project of category `c` is kept as many times as it occurs,
      and no other project is kept. */
  lemma {:induction false} KeepCategoryCounts(ps: seq<Project>, c: string, p: Project)
    ensures multiset(KeepCategory(ps, c))[p] == if p.category == c then multiset(ps)[p] else 0
    decreases ps
  {
    if ps != [] {
      KeepCategoryCounts(ps[1..], c, p);
      assert ps == [ps[0]] + ps[1..];
      assert multiset(ps) == multiset([ps[0]]) + multiset(ps[1..]);
      var rest := KeepCategory(ps[1..], c);
      if ps[0].category == c {
        assert multiset(KeepCategory(ps, c)) == multiset([ps[0]]) + multiset(rest);
      } else {
        assert KeepCategory(ps, c) == rest;
      }
    }
  }

  /** Filtering again by the same category changes nothing. */
  lemma {:induction false} KeepCategoryIdempotent(ps: seq<Project>, c: string)
    ensures KeepCategory(KeepCategory(ps, c), c) == KeepCategory(ps, c)
    decreases ps
  {
    if ps != [] {
      KeepCategoryIdempotent(ps[1..], c);
      var rest := KeepCategory(ps[1..], c);
      if ps[0].category == c {
        var kept := [ps[0]] + rest;
        assert kept[0] == ps[0] && kept[1..] == rest;
        assert KeepCategory(kept, c) == [ps[0]] + KeepCategory(rest, c);
      } else {
        assert KeepCategory(ps, c) == rest;
      }
    }
  }

  // ---------------------------------------------------------------------
  // Facts about the fixed data
  // ---------------------------------------------------------------------

  /** No button shows an empty grid: every category other than "Todos"
      has a project, and "Todos" itself shows all six. */
  lemma EveryCategoryHasProjects(i: nat)
    requires i < |Categories|
    ensures |FilteredProjects(Categories[i], Projects)| >= 1
  {
    // each category is the category of a project listed at index k
    var k := if i <= 1 then 0 else i - 1;
    assert Projects[k] in Projects;
    assert i > 0 ==> Projects[k].category == Categories[i];
    KeepCategoryMembers(Projects, Categories[i]);
    assert i > 0 ==> Projects[k] in KeepCategory(Projects, Categories[i]);
  }

  /** One step of the filter, taken at index `k` of `ps`. */
  lemma KeepCategoryAt(ps: seq<Project>, k: nat, c: string)
    requires k < |ps|
    ensures KeepCategory(ps[k..], c)
      == (if ps[k].category == c then [ps[k]] else []) + KeepCategory(ps[k + 1..], c)
  {
    assert ps[k..][1..] == ps[k + 1..];
  }

  /** The "IA" button shows projects 1 and 5, in that order. */
  lemma IaProjects()
    ensures KeepCategory(Projects, "IA") == [Projects[0], Projects[4]]
  {
    var ps := Projects;
    assert ps[6..] == [];
    KeepCategoryAt(ps, 5, "IA");
    KeepCategoryAt(ps, 4, "IA");
    KeepCategoryAt(ps, 3, "IA");
    KeepCategoryAt(ps, 2, "IA");
    KeepCategoryAt(ps, 1, "IA");
    KeepCategoryAt(ps, 0, "IA");
    assert ps[0..] == ps;
  }

  /** No project is of category "Todos": filtering by it with the array
      filter would show nothing, which is why it is tested first. */
  lemma AllCategoryMatchesNoProject()
    ensures KeepCategory(Projects, AllCategory) == []
    ensures FilteredProjects(AllCategory, Projects) == Projects
  {
    var ps := Projects;
    assert ps[6..] == [];
    KeepCategoryAt(ps, 5, AllCategory);
    KeepCategoryAt(ps, 4, AllCategory);
    KeepCategoryAt(ps, 3, AllCategory);
    KeepCategoryAt(ps, 2, AllCategory);
    KeepCategoryAt(ps, 1, AllCategory);
    KeepCategoryAt(ps, 0, AllCategory);
    assert ps[0..] == ps;
  }

  // ---------------------------------------------------------------------
  // The page's mutable state
  // ---------------------------------------------------------------------

  class PortfolioPage {
    /** The selected category. */
    var filter: string

    constructor ()
      ensures filter == AllCategory
      ensures Visible() == Projects
    {
      filter := AllCategory;
    }

    /** A click on the button of category `cat`. */
    method SelectCategory(cat: string)
      modifies this
      ensures filter == cat
      ensures forall j :: 0 <= j < |Categories| ==> (IsSelected(j) <==> Categories[j] == cat)
      ensures Visible() == FilteredProjects(cat, Projects)
    {
      filter := cat;
    }

    /** The projects on the grid. */
    function Visible(): (r: seq<Project>)
      reads this
      ensures filter == AllCategory ==> r == Projects
      ensures filter != AllCategory ==> forall p :: p in r <==> p in Projects && p.category == filter
    {
      FilteredProjects(filter, Projects)
    }

    /** Whether the button of category `cat` is styled as selected. */
    /** Whether the button at index `i` of the row is styled as selected:
        its category is the selected one, and then no other button's is. */
    function IsSelected(i: nat): (r: bool)
      requires i < |Categories|
      reads this
      ensures r <==> filter == Categories[i]
      ensures r ==> forall j :: 0 <= j < |Categories| && j != i ==> Categories[j] != filter
    {
      filter == Categories[i]
    }
  }

  /** The buttons' categories are distinct, so the selected category styles
      at most one button, and exactly the button it was chosen by. */
  lemma SelectedButtonIsUnique(page: PortfolioPage, i: nat, j: nat)
    requires i < |Categories| && j < |Categories|
    requires page.IsSelected(i)
    ensures page.IsSelected(j) <==> i == j
  {
  }

  /** Clicking the button at index `i` selects exactly that button. */
  method ClickSelectsOnlyThatButton(i: nat) returns (selected: seq<bool>)
    requires i < |Categories|
    ensures |selected| == |Categories|
    ensures forall j :: 0 <= j < |Categories| ==> (selected[j] <==> j == i)
  {
    var page := new PortfolioPage();
    page.SelectCategory(Categories[i]);
    selected := [page.IsSelected(0), page.IsSelected(1), page.IsSelected(2),
                 page.IsSelected(3), page.IsSelected(4)];
  }

  /** Starting on "Todos", picking "IA" shows projects 1 and 5, and picking
      "Todos" again restores all six. */
  method FilterScenario() returns (ia: seq<nat>, all: nat)
    ensures ia == [1, 5] && all == 6
  {
    var page := new PortfolioPage();
    page.SelectCategory("IA");
    IaProjects();
    var shown := page.Visible();
    ia := [shown[0].id, shown[1].id];
    page.SelectCategory(AllCategory);
    all := |page.Visible()|;
  }
}
