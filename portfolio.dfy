/** The portfolio section: a constant table of projects and the category filter over it. */
module Portfolio {
  datatype Project = Project(id: int, title: string, category: string, image: string, description: string, results: string)

  const All := "All"

  const Projects: seq<Project> := [
    Project(1, "E-commerce Platform", "Web Development",
      "https://images.unsplash.com/photo-1661956602116-aa6865609028?auto=format&fit=crop&q=80&w=800&h=600",
      "Modern e-commerce solution with seamless payment integration", "150% increase in online sales"),
    Project(2, "Brand Identity Design", "Graphic Design",
      "https://images.unsplash.com/photo-1634942537034-2531766767d1?auto=format&fit=crop&q=80&w=800&h=600",
      "Complete brand identity redesign for tech startup", "200% increase in brand recognition"),
    Project(3, "Social Media Campaign", "Digital Marketing",
      "https://images.unsplash.com/photo-1611162617474-5b21e879e113?auto=format&fit=crop&q=80&w=800&h=600",
      "Integrated social media marketing campaign", "300% engagement increase"),
    Project(4, "Product Showcase", "Product Photography",
      "https://images.unsplash.com/photo-1505740420928-5e560c06d30e?auto=format&fit=crop&q=80&w=800&h=600",
      "Professional product photography for e-commerce", "40% increase in product sales"),
    Project(5, "Corporate Video", "Video Editing",
      "https://images.unsplash.com/photo-1536240478700-b869070f9279?auto=format&fit=crop&q=80&w=800&h=600",
      "Corporate brand video with motion graphics", "85% positive feedback"),
    Project(6, "Email Campaign", "Email Marketing",
      "https://images.unsplash.com/photo-1557200134-90327ee9fafa?auto=format&fit=crop&q=80&w=800&h=600",
      "Automated email marketing campaign", "250% increase in leads")
  ]

  const Categories: seq<string> := [All, "Web Development", "Graphic Design", "Digital Marketing",
                                    "Product Photography", "Video Editing", "Email Marketing"]

  /** `a` is `b` with some elements dropped and the rest kept in order. */
  predicate IsSubsequence<T(==)>(a: seq<T>, b: seq<T>)
    decreases |b|
  {
    if a == [] then true
    else if b == [] then false
    else if a[0] == b[0] then IsSubsequence(a[1..], b[1..])
    else IsSubsequence(a, b[1..])
  }

  /** A subsequence is never longer than the sequence it is taken from. */
  lemma {:induction false} SubsequenceLength<T>(a: seq<T>, b: seq<T>)
    requires IsSubsequence(a, b)
    ensures |a| <= |b|
    decreases |b|
  {
    if a != [] {
      if a[0] == b[0] {
        SubsequenceLength(a[1..], b[1..]);
      } else {
        SubsequenceLength(a, b[1..]);
      }
    }
  }

  /** Every sequence is a subsequence of itself. */
  lemma {:induction false} SubsequenceReflexive<T>(a: seq<T>)
    ensures IsSubsequence(a, a)
    decreases |a|
  {
    if a != [] {
      SubsequenceReflexive(a[1..]);
    }
  }

  /** Filtering keeps the counts: putting `p` in front of the input puts it in front of the result exactly when it matches. */
  lemma CountsCons(p: Project, tail: seq<Project>, rest: seq<Project>, c: string)
    requires forall q :: multiset(rest)[q] == if q.category == c then multiset(tail)[q] else 0
    ensures var r := if p.category == c then [p] + rest else rest;
      forall q :: multiset(r)[q] == if q.category == c then multiset([p] + tail)[q] else 0
  {
    assert multiset([p] + tail) == multiset{p} + multiset(tail);
    assert multiset([p] + rest) == multiset{p} + multiset(rest);
  }

  /** `projects.filter(project => project.category === c)`. */
  function WithCategory(ps: seq<Project>, c: string): (r: seq<Project>)
    ensures forall p | p in r :: p in ps && p.category == c
    ensures forall p | p in ps && p.category == c :: p in r
    ensures IsSubsequence(r, ps)
    ensures forall q :: multiset(r)[q] == if q.category == c then multiset(ps)[q] else 0
    decreases |ps|
  {
    if ps == [] then []
    else
      var rest := WithCategory(ps[1..], c);
      assert ps == [ps[0]] + ps[1..];
      CountsCons(ps[0], ps[1..], rest, c);
      assert forall p | p in ps :: p == ps[0] || p in ps[1..];
      if ps[0].category == c then
        assert ([ps[0]] + rest)[1..] == rest;
        [ps[0]] + rest
      else
        assert rest == [] || rest[0] != ps[0];
        rest
  }

  /** `filteredProjects` for the selected category. */
  function Filtered(active: string): (r: seq<Project>)
    ensures active == All ==> r == Projects
    ensures active != All ==> forall p | p in r :: p in Projects && p.category == active
    ensures active != All ==> forall p | p in Projects && p.category == active :: p in r
    ensures active != All ==> forall q :: multiset(r)[q] == if q.category == active then multiset(Projects)[q] else 0
    ensures IsSubsequence(r, Projects)
    ensures |r| <= |Projects|
  {
    if active == All then
      SubsequenceReflexive(Projects);
      Projects
    else
      var r := WithCategory(Projects, active);
      SubsequenceLength(r, Projects);
      r
  }

  /** "All" is the first button and no project's category; every project's category has a button. */
  lemma CategoriesCoverProjects()
    ensures Categories[0] == All
    ensures forall p | p in Projects :: p.category != All
    ensures forall p | p in Projects :: p.category in Categories
  {
    forall p | p in Projects ensures p.category != All && p.category in Categories {
      var i :| 0 <= i < |Projects| && Projects[i] == p;
      assert Categories[i + 1] == p.category;
    }
  }

  /** Every button other than "All" shows at least one project. */
  lemma EveryCategoryShowsAProject()
    ensures forall c | c in Categories && c != All :: Filtered(c) != []
  {
    forall c | c in Categories && c != All ensures Filtered(c) != [] {
      var i :| 1 <= i < |Categories| && Categories[i] == c;
      assert Projects[i - 1].category == c;
      assert Projects[i - 1] in Projects;
    }
  }

  /** The ids, which key the rendered grid, are distinct. */
  lemma ProjectIdsDistinct()
    ensures forall i, j | 0 <= i < j < |Projects| :: Projects[i].id != Projects[j].id
  {
    forall i | 0 <= i < |Projects| ensures Projects[i].id == i + 1 { }
  }
}
