/** The static project catalogue and its filters. The simulated network
    delay of the source (a promise resolved by a timer) carries no logic and
    is not modelled: every query is a function of its arguments. */
module ProjectModel {
  import opened Optional
  import opened Sequences

  datatype Category = Backend | Frontend | Academic {
    /** The string the catalogue uses for the category. */
    function Id(): string {
      match this
      case Backend => "backend"
      case Frontend => "frontend"
      case Academic => "academic"
    }
  }

  /** The category id that selects every project. */
  const AllId: string := "all"

  datatype Project = Project(
    title: string,
    description: string,
    tags: seq<string>,
    category: Category,
    featured: bool,
    githubUrl: Option<string>,
    liveUrl: Option<string>,
    image: Option<string>)

  datatype ProjectCategory = ProjectCategory(id: string, name: string)

  // The project descriptions, kept out of the catalogue's own literal.
  const ECommerceDescription: string :=
    "Comprehensive e-commerce backend built with Node.js, Express.js, and PostgreSQL. Features include user authentication with Keycloak, product management, order processing, and payment integration."
  const CrmDescription: string :=
    "Customer Relationship Management system with token-based authentication, role-based access control, and comprehensive customer data management."
  const FertilizerMixerDescription: string :=
    "PLC-based precision agriculture system for automated fertilizer mixing and distribution, improving crop yield and reducing waste."
  const PortfolioDescription: string :=
    "Interactive portfolio website built with React.js, featuring 3D animations, particle effects, and responsive design."

  /** The catalogue, in declaration order. A project without a `featured`
      flag is not featured. */
  function Projects(): seq<Project>
  {
    [ Project("E-Commerce API",
              ECommerceDescription,
              ["Node.js", "Express.js", "PostgreSQL", "Keycloak", "REST API"],
              Backend, true, Some("#"), None, None),
      Project("CRM System",
              CrmDescription,
              ["Node.js", "JWT", "PostgreSQL", "Prisma"],
              Backend, false, Some("#"), None, None),
      Project("Auto Fertilizer Mixer",
              FertilizerMixerDescription,
              ["PLC", "IoT", "Agriculture", "Automation"],
              Academic, false, Some("#"), None, None),
      Project("Portfolio Website",
              PortfolioDescription,
              ["React.js", "Three.js", "Framer Motion", "Tailwind CSS"],
              Frontend, false, Some("#"), None, None) ]
  }

  /** The category list, in declaration order. */
  function Categories(): seq<ProjectCategory>
  {
    [ ProjectCategory(AllId, "All Projects"),
      ProjectCategory("backend", "Backend"),
      ProjectCategory("frontend", "Frontend"),
      ProjectCategory("academic", "Academic") ]
  }

  // ---------------------------------------------------------------------
  // Filtering

  /** The elements of `s` that satisfy `keep`, in their original order
      (JavaScript's `s.filter(keep)`). */
  function Filter<T(!new)>(s: seq<T>, keep: T -> bool): (r: seq<T>)
    ensures |r| <= |s|
    ensures forall x :: x in r <==> x in s && keep(x)
    ensures Subsequence(r, s)
  {
    if s == [] then []
    else if keep(s[0]) then [s[0]] + Filter(s[1..], keep)
    else Filter(s[1..], keep)
  }

  /** `Filter` keeps each element that passes the test exactly as often
      as the input holds it, and drops every other one. */
  lemma {:induction false} FilterCounts<T(!new)>(s: seq<T>, keep: T -> bool)
    ensures forall x :: multiset(Filter(s, keep))[x] == if keep(x) then multiset(s)[x] else 0
  {
    if s != [] {
      FilterCounts(s[1..], keep);
      assert s == [s[0]] + s[1..];
    }
  }

  function HasCategory(id: string): Project -> bool
  {
    (p: Project) => p.category.Id() == id
  }

  function IsFeatured(p: Project): bool
  {
    p.featured
  }

  /** A fresh copy of the whole catalogue: all four projects in declaration
      order. */
  function GetAllProjects(): (r: seq<Project>)
    ensures |r| == 4
    ensures r[0].title == "E-Commerce API" && r[1].title == "CRM System"
    ensures r[2].title == "Auto Fertilizer Mixer" && r[3].title == "Portfolio Website"
  {
    Projects()
  }

  /** The projects of one category; "all" selects the whole catalogue. */
  function GetProjectsByCategory(category: string): (r: seq<Project>)
    ensures category == AllId ==> r == GetAllProjects()
    ensures category != AllId ==> forall p :: p in r <==> p in GetAllProjects() && p.category.Id() == category
    ensures Subsequence(r, GetAllProjects())
  {
    if category == AllId then GetAllProjects()
    else Filter(GetAllProjects(), HasCategory(category))
  }

  /** The featured projects, in catalogue order. */
  function GetFeaturedProjects(): (r: seq<Project>)
    ensures forall p :: p in r <==> p in GetAllProjects() && p.featured
    ensures Subsequence(r, GetAllProjects())
  {
    Filter(GetAllProjects(), IsFeatured)
  }

  /** The category ids, "all" first. */
  function GetCategories(): (r: seq<ProjectCategory>)
    ensures |r| == 4
    ensures r[0].id == AllId && r[1].id == Backend.Id() && r[2].id == Frontend.Id() && r[3].id == Academic.Id()
  {
    Categories()
  }

  // ---------------------------------------------------------------------
  // Properties of the filters

  /** Every category has its own id, and none of them is "all". */
  lemma CategoryIdsDistinct(a: Category, b: Category)
    ensures a.Id() == b.Id() <==> a == b
    ensures a.Id() != AllId
  {
  }

  /** Every filtered list is at most as long as the catalogue. */
  lemma {:induction false} SubsequenceLength<T>(a: seq<T>, b: seq<T>)
    requires Subsequence(a, b)
    ensures |a| <= |b|
    decreases |b|
  {
    if a != [] {
      if a[0] == b[0] && Subsequence(a[1..], b[1..]) {
        SubsequenceLength(a[1..], b[1..]);
      } else {
        SubsequenceLength(a, b[1..]);
      }
    }
  }

  /** A category id that no project carries selects nothing. */
  lemma {:induction false} UnknownCategoryIsEmpty(s: seq<Project>, id: string)
    requires forall p :: p in s ==> p.category.Id() != id
    ensures Filter(s, HasCategory(id)) == []
  {
    if s != [] {
      assert s[0] in s;
      UnknownCategoryIsEmpty(s[1..], id);
    }
  }

  /** Any id other than "all" and the three category ids, "mobile" for one,
      selects no project. */
  lemma UnknownCategoryYieldsNothing(category: string)
    requires category !in {AllId, "backend", "frontend", "academic"}
    ensures GetProjectsByCategory(category) == []
  {
    UnknownCategoryIsEmpty(GetAllProjects(), category);
  }

  /** Whether a project belongs to category `c`. */
  function InCategory(c: Category): Project -> bool
  {
    (p: Project) => p.category == c
  }

  /** Two tests that agree everywhere filter alike. */
  lemma {:induction false} FilterSame<T(!new)>(s: seq<T>, k1: T -> bool, k2: T -> bool)
    requires forall x :: k1(x) == k2(x)
    ensures Filter(s, k1) == Filter(s, k2)
  {
    if s != [] {
      FilterSame(s[1..], k1, k2);
    }
  }

  /** Filtering by a category's id is filtering by the category. */
  lemma IdFilterIsCategoryFilter(s: seq<Project>, c: Category)
    ensures Filter(s, HasCategory(c.Id())) == Filter(s, InCategory(c))
  {
    forall p: Project
      ensures HasCategory(c.Id())(p) == InCategory(c)(p)
    {
      CategoryIdsDistinct(p.category, c);
    }
    FilterSame(s, HasCategory(c.Id()), InCategory(c));
  }

  /** One step of `Filter`: the first element, if kept, then the rest. */
  lemma FilterCons<T(!new)>(s: seq<T>, keep: T -> bool)
    requires s != []
    ensures Filter(s, keep) == (if keep(s[0]) then [s[0]] else []) + Filter(s[1..], keep)
  {
  }

  /** A project lands in exactly one of the three category filters. */
  lemma OneCategory(p: Project)
    ensures multiset(if InCategory(Backend)(p) then [p] else [])
          + multiset(if InCategory(Frontend)(p) then [p] else [])
          + multiset(if InCategory(Academic)(p) then [p] else []) == multiset{p}
  {
    assert multiset([p]) == multiset{p};
  }

  lemma {:induction false} PartitionByCategory(s: seq<Project>)
    ensures multiset(Filter(s, InCategory(Backend)))
          + multiset(Filter(s, InCategory(Frontend)))
          + multiset(Filter(s, InCategory(Academic))) == multiset(s)
  {
    if s != [] {
      PartitionByCategory(s[1..]);
      FilterCons(s, InCategory(Backend));
      FilterCons(s, InCategory(Frontend));
      FilterCons(s, InCategory(Academic));
      assert multiset(s) == multiset{s[0]} + multiset(s[1..]) by {
        HeadTail(s);
      }
      OneCategory(s[0]);
    }
  }

  /** The three categories split any project list: each project lands in
      exactly one of the three filtered lists, so together they hold the
      list's projects, each as often as in the list. */
  lemma CategoriesPartition(s: seq<Project>)
    ensures multiset(Filter(s, HasCategory("backend")))
          + multiset(Filter(s, HasCategory("frontend")))
          + multiset(Filter(s, HasCategory("academic"))) == multiset(s)
    ensures |Filter(s, HasCategory("backend"))|
          + |Filter(s, HasCategory("frontend"))|
          + |Filter(s, HasCategory("academic"))| == |s|
  {
    IdFilterIsCategoryFilter(s, Backend);
    IdFilterIsCategoryFilter(s, Frontend);
    IdFilterIsCategoryFilter(s, Academic);
    PartitionByCategory(s);
    var b, f, a := Filter(s, InCategory(Backend)), Filter(s, InCategory(Frontend)), Filter(s, InCategory(Academic));
    assert |multiset(b) + multiset(f) + multiset(a)| == |b| + |f| + |a|;
  }

  /** The catalogue's split: two backend projects, one frontend, one
      academic. */
  lemma CatalogueByCategory()
    ensures |GetProjectsByCategory("backend")| == 2
    ensures |GetProjectsByCategory("frontend")| == 1
    ensures |GetProjectsByCategory("academic")| == 1
    ensures GetProjectsByCategory("frontend")[0].title == "Portfolio Website"
  {
    var s := Projects();
    IdFilterIsCategoryFilter(s, Backend);
    IdFilterIsCategoryFilter(s, Frontend);
    IdFilterIsCategoryFilter(s, Academic);
    assert s[1..][1..][1..][1..] == [];
  }

  /** Only the "E-Commerce API" project is featured. */
  lemma OnlyOneFeatured()
    ensures GetFeaturedProjects() == [GetAllProjects()[0]]
    ensures GetFeaturedProjects()[0].title == "E-Commerce API"
  {
    var s := Projects();
    assert s[1..][1..][1..][1..] == [];
  }
}
