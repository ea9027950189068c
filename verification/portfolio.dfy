/**
 * The portfolio page: the six built-in projects, the category filter, the
 * project detail dialog and the technology chips on a card.
 */
module Portfolio {
  import opened Optional
  import opened Lists

  datatype Project = Project(
    id: nat,
    title: string,
    category: string,
    image: string,
    description: string,
    technologies: seq<string>,
    liveUrl: string,
    githubUrl: string,
    features: seq<string>,
    year: string)

  const DESCRIPTION_1: string :=
    "A full-featured e-commerce platform with payment integration, inventory management, and admin dashboard."
  const DESCRIPTION_2: string :=
    "Mobile application for sports analytics with real-time data visualization and performance tracking."
  const DESCRIPTION_3: string :=
    "Scalable REST API service with authentication, rate limiting, and comprehensive documentation."
  const DESCRIPTION_4: string :=
    "Modern corporate website with CMS integration, blog functionality, and contact management."
  const DESCRIPTION_5: string :=
    "Food delivery mobile application with real-time tracking, payment integration, and restaurant management."
  const DESCRIPTION_6: string :=
    "Personal portfolio website with modern design, animations, and contact functionality."

  const LIVE_URL: string := "https://example.com"
  const GITHUB_URL: string := "https://github.com"

  function Project1(): Project
  {
    Project(1, "E-commerce Platform", "ecommerce", "/src/assets/portfolio-1.jpg", DESCRIPTION_1,
            ["React", "Node.js", "MongoDB", "Stripe"], LIVE_URL, GITHUB_URL,
            ["Payment Gateway Integration", "Inventory Management", "Order Processing",
             "Admin Dashboard", "Mobile Responsive", "SEO Optimized"],
            "2024")
  }

  function Project2(): Project
  {
    Project(2, "Sports Analytics App", "mobile", "/src/assets/portfolio-2.jpg", DESCRIPTION_2,
            ["React Native", "Firebase", "Chart.js", "Redux"], LIVE_URL, GITHUB_URL,
            ["Real-time Data", "Performance Analytics", "Push Notifications",
             "Offline Support", "Social Features", "Custom Dashboard"],
            "2024")
  }

  function Project3(): Project
  {
    Project(3, "REST API Service", "api", "/src/assets/portfolio-3.jpg", DESCRIPTION_3,
            ["Node.js", "Express", "PostgreSQL", "JWT"], LIVE_URL, GITHUB_URL,
            ["RESTful API Design", "JWT Authentication", "Rate Limiting",
             "API Documentation", "Error Handling", "Testing Suite"],
            "2023")
  }

  function Project4(): Project
  {
    Project(4, "Corporate Website", "web", "/src/assets/portfolio-1.jpg", DESCRIPTION_4,
            ["Next.js", "TypeScript", "Strapi", "Tailwind CSS"], LIVE_URL, GITHUB_URL,
            ["Content Management", "Blog System", "Contact Forms",
             "SEO Optimization", "Performance Optimized", "Responsive Design"],
            "2023")
  }

  function Project5(): Project
  {
    Project(5, "Food Delivery App", "mobile", "/src/assets/portfolio-2.jpg", DESCRIPTION_5,
            ["React Native", "Node.js", "Socket.io", "PayPal"], LIVE_URL, GITHUB_URL,
            ["Real-time Tracking", "Payment Integration", "Restaurant Dashboard",
             "Order Management", "Push Notifications", "Rating System"],
            "2023")
  }

  function Project6(): Project
  {
    Project(6, "Portfolio Website", "web", "/src/assets/portfolio-3.jpg", DESCRIPTION_6,
            ["React", "Framer Motion", "Tailwind CSS", "Vite"], LIVE_URL, GITHUB_URL,
            ["Modern Design", "Smooth Animations", "Contact Forms",
             "Project Showcase", "Responsive Layout", "Performance Optimized"],
            "2024")
  }

  /** The projects in declaration order. */
  function Projects(): (r: seq<Project>)
    ensures |r| == 6
  {
    [Project1(), Project2(), Project3(), Project4(), Project5(), Project6()]
  }

  function CategoryTest(filter: string): Project -> bool
  {
    (p: Project) => filter == "all" || p.category == filter
  }

  /**
   * `filteredProjects`: every project for "all", otherwise exactly the
   * projects of that category, in their order.
   */
  function FilteredProjects(projects: seq<Project>, filter: string): (r: seq<Project>)
    ensures filter == "all" ==> r == projects
    ensures filter != "all" ==> forall i :: 0 <= i < |r| ==> r[i].category == filter
    ensures forall x | x in r :: x in projects
    ensures forall x | x in projects && (filter == "all" || x.category == filter) :: x in r
    ensures Subsequence(r, projects)
  {
    var test := CategoryTest(filter);
    FilterMembers(projects, test);
    FilterIsSubsequence(projects, test);
    if filter == "all" then
      FilterKeepsAll(projects, test);
      Filter(projects, test)
    else
      Filter(projects, test)
  }

  /** Filtering an already filtered list by the same category changes nothing. */
  lemma FilterIdempotent(projects: seq<Project>, filter: string)
    ensures FilteredProjects(FilteredProjects(projects, filter), filter) == FilteredProjects(projects, filter)
  {
    var once := FilteredProjects(projects, filter);
    FilterKeepsAll(once, CategoryTest(filter));
  }

  /** Two different categories share no project. */
  lemma CategoriesDisjoint(projects: seq<Project>, f: string, g: string)
    requires f != "all" && g != "all" && f != g
    ensures forall x | x in FilteredProjects(projects, f) :: x !in FilteredProjects(projects, g)
  {
    var a, b := FilteredProjects(projects, f), FilteredProjects(projects, g);
    forall x | x in a ensures x !in b {
      var i :| 0 <= i < |a| && a[i] == x;
      assert x.category == f;
      assert forall j :: 0 <= j < |b| ==> b[j].category == g;
    }
  }

  /** A card's technology chips: the first three and, past three, a "+n more" chip. */
  function CardTechnologies(p: Project): (c: Chips)
    ensures |c.shown| <= 3 && c.shown <= p.technologies
    ensures c.more.Some? <==> |p.technologies| > 3
    ensures |p.technologies| > 3 ==> c.more == Some(MoreLabel(|p.technologies| - 3))
    ensures AccountedFor(c) == |p.technologies|
  {
    TruncateChipsAccountsForAll(p.technologies, 3);
    TruncateChips(p.technologies, 3)
  }

  /** The page state: the chosen filter and the project whose dialog is open, if any. */
  class PortfolioPage {
    var activeFilter: string
    var selectedProject: Option<Project>

    constructor ()
      ensures activeFilter == "all" && selectedProject == None
    {
      activeFilter := "all";
      selectedProject := None;
    }

    /** The projects on screen. */
    function Shown(): seq<Project>
      reads this
    {
      FilteredProjects(Projects(), activeFilter)
    }

    method SetFilter(filter: string)
      modifies this
      ensures activeFilter == filter && selectedProject == old(selectedProject)
    {
      activeFilter := filter;
    }

    /** `openProjectModal`: the dialog shows the clicked project. */
    method OpenProject(p: Project)
      modifies this
      ensures selectedProject == Some(p) && activeFilter == old(activeFilter)
    {
      selectedProject := Some(p);
    }

    /** `closeProjectModal`: no dialog. */
    method CloseProject()
      modifies this
      ensures selectedProject == None && activeFilter == old(activeFilter)
    {
      selectedProject := None;
    }
  }
}
