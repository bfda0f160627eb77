/**
  The skills "constellation" section: a fixed list of skills placed at
  percentage coordinates, a fixed list of named links between them, and the
  values the section derives from both: the coloured connection list, the
  category legend, and the node and edge views filtered by the category the
  pointer is over.
*/
module Skills {

  import opened Wrappers
  import SkillLegend

  /** The node size tier ("sm", "md", "lg"). */
  datatype Size = Sm | Md | Lg

  datatype Skill = Skill(name: string, category: string, x: int, y: int, size: Size)

  /** A position in the constellation, in percent of the container box. */
  datatype Point = Point(x: int, y: int)

  /** One entry of `explicitConnections`: the names of two skills. */
  datatype Link = Link(from: string, to: string)

  /**
    A drawn edge: the coordinates of its two ends and its stroke colour
    (`categoryColors[...]`, which is undefined for a category the record lacks,
    as long as the category is not the name of an `Object.prototype` member).
  */
  datatype Connection = Connection(from: Point, to: Point, color: Option<string>)

  function PointOf(s: Skill): Point
  {
    Point(s.x, s.y)
  }

  /** Languages cluster (top-centre). */
  const LanguagesCluster: seq<Skill> := [
    Skill("TypeScript", "Languages", 48, 12, Lg),
    Skill("JavaScript", "Languages", 38, 18, Md),
    Skill("Python", "Languages", 58, 18, Md),
    Skill("C++", "Languages", 32, 10, Sm),
    Skill("C", "Languages", 64, 10, Sm),
    Skill("Golang", "Languages", 52, 6, Sm),
    Skill("SQL", "Languages", 44, 22, Sm)
  ]

  /** Frontend cluster (left side). */
  const FrontendCluster: seq<Skill> := [
    Skill("React", "Frontend", 10, 30, Lg),
    Skill("Next.js", "Frontend", 20, 30, Lg),
    Skill("React Native", "Frontend", 12, 48, Md),
    Skill("Redux", "Frontend", 24, 46, Md),
    Skill("Recoil", "Frontend", 8, 56, Sm),
    Skill("Zustand", "Frontend", 18, 58, Sm),
    Skill("TailwindCSS", "Frontend", 32, 54, Md),
    Skill("MUI", "Frontend", 10, 66, Sm),
    Skill("Shadcn", "Frontend", 22, 68, Sm)
  ]

  /** Backend cluster (right side). */
  const BackendCluster: seq<Skill> := [
    Skill("Node.js", "Backend", 78, 28, Lg),
    Skill("NestJS", "Backend", 86, 36, Md),
    Skill("Express", "Backend", 72, 40, Md),
    Skill("WebSocket", "Backend", 90, 44, Sm),
    Skill("WebRTC", "Backend", 82, 48, Sm),
    Skill("GraphQL", "Backend", 76, 54, Sm),
    Skill("Kafka", "Backend", 88, 56, Sm),
    Skill("LLMs", "Backend", 80, 60, Md),
    Skill("LangChain", "Backend", 72, 64, Sm)
  ]

  /** Database cluster (centre-bottom). */
  const DatabaseCluster: seq<Skill> := [
    Skill("PostgreSQL", "Database", 48, 50, Lg),
    Skill("MongoDB", "Database", 56, 46, Md),
    Skill("Firebase", "Database", 40, 60, Md),
    Skill("Prisma ORM", "Database", 58, 58, Sm),
    Skill("MySQL", "Database", 44, 68, Sm),
    Skill("Supabase", "Database", 54, 66, Md),
    Skill("Redis", "Database", 62, 64, Sm)
  ]

  /** DevOps cluster (bottom-right). */
  const DevOpsCluster: seq<Skill> := [
    Skill("AWS", "DevOps", 76, 82, Lg),
    Skill("Docker", "DevOps", 68, 88, Md),
    Skill("CI/CD", "DevOps", 84, 90, Sm),
    Skill("Cloudflare", "DevOps", 72, 94, Sm),
    Skill("Vercel", "DevOps", 88, 78, Sm),
    Skill("Netlify", "DevOps", 80, 96, Sm),
    Skill("Serverless", "DevOps", 90, 86, Sm)
  ]

  /** `skillsData`: the five clusters in declaration order. */
  const SkillsData: seq<Skill> :=
    LanguagesCluster + FrontendCluster + BackendCluster + DatabaseCluster + DevOpsCluster

  /** `categoryColors`. */
  const CategoryColors: map<string, string> := map[
    "Languages" := "hsl(263, 70%, 71%)",
    "Frontend" := "hsl(217, 92%, 69%)",
    "Backend" := "hsl(160, 84%, 52%)",
    "Database" := "hsl(330, 71%, 66%)",
    "DevOps" := "hsl(27, 96%, 61%)"
  ]

  /** Languages cluster: a star from TypeScript. */
  const LanguagesLinks: seq<Link> := [
    Link("TypeScript", "JavaScript"),
    Link("TypeScript", "Python"),
    Link("TypeScript", "Golang"),
    Link("JavaScript", "C++"),
    Link("JavaScript", "SQL"),
    Link("Python", "C"),
    Link("C++", "C")
  ]

  /** Frontend cluster: branching from React and Next.js. */
  const FrontendLinks: seq<Link> := [
    Link("React", "Next.js"),
    Link("React", "React Native"),
    Link("React", "Redux"),
    Link("React Native", "Recoil"),
    Link("Redux", "Zustand"),
    Link("Next.js", "TailwindCSS"),
    Link("Recoil", "MUI"),
    Link("Zustand", "Shadcn"),
    Link("TailwindCSS", "Shadcn")
  ]

  /** Backend cluster: branching from Node.js. */
  const BackendLinks: seq<Link> := [
    Link("Node.js", "NestJS"),
    Link("Node.js", "Express"),
    Link("NestJS", "WebSocket"),
    Link("Express", "WebRTC"),
    Link("WebSocket", "WebRTC"),
    Link("Express", "GraphQL"),
    Link("NestJS", "Kafka"),
    Link("GraphQL", "LLMs"),
    Link("LLMs", "LangChain"),
    Link("Kafka", "LLMs")
  ]

  /** Database cluster: branching from PostgreSQL. */
  const DatabaseLinks: seq<Link> := [
    Link("PostgreSQL", "MongoDB"),
    Link("PostgreSQL", "Firebase"),
    Link("MongoDB", "Prisma ORM"),
    Link("Firebase", "MySQL"),
    Link("Prisma ORM", "Supabase"),
    Link("MySQL", "Supabase"),
    Link("Prisma ORM", "Redis"),
    Link("Supabase", "Redis")
  ]

  /** DevOps cluster: branching from AWS. */
  const DevOpsLinks: seq<Link> := [
    Link("AWS", "Docker"),
    Link("AWS", "Vercel"),
    Link("AWS", "CI/CD"),
    Link("Docker", "Cloudflare"),
    Link("CI/CD", "Netlify"),
    Link("Cloudflare", "Netlify"),
    Link("Vercel", "Serverless"),
    Link("CI/CD", "Serverless")
  ]

  /** `explicitConnections`: the five groups in declaration order. */
  const ExplicitConnections: seq<Link> :=
    LanguagesLinks + FrontendLinks + BackendLinks + DatabaseLinks + DevOpsLinks

  /**
    `categoryColors[category]`. Names of `Object.prototype` members such as
    `"toString"` would find an inherited value in the object literal; here
    they find nothing, like any other category the record lacks.
  */
  function ColorOf(category: string): Option<string>
  {
    if category in CategoryColors then Some(CategoryColors[category]) else None
  }

  // ---------------------------------------------------------------------------
  // Lookups (`Array.prototype.find`)
  // ---------------------------------------------------------------------------

  /** `i` is the index of the first skill called `name`. */
  ghost predicate FirstNamed(skills: seq<Skill>, i: int, name: string)
  {
    0 <= i < |skills| && skills[i].name == name && forall j | 0 <= j < i :: skills[j].name != name
  }

  /** `i` is the index of the first skill placed at `p`. */
  ghost predicate FirstAt(skills: seq<Skill>, i: int, p: Point)
  {
    0 <= i < |skills| && PointOf(skills[i]) == p && forall j | 0 <= j < i :: PointOf(skills[j]) != p
  }

  /** `skills.find((s) => s.name === name)`. */
  function FindByName(skills: seq<Skill>, name: string): (r: Option<Skill>)
    ensures r.None? <==> forall i | 0 <= i < |skills| :: skills[i].name != name
    ensures r.Some? ==> exists i :: FirstNamed(skills, i, name) && skills[i] == r.value
  {
    if skills == [] then None
    else if skills[0].name == name then
      assert FirstNamed(skills, 0, name);
      Some(skills[0])
    else
      var r := FindByName(skills[1..], name);
      r
  }

  /** `skills.find((s) => s.x === p.x && s.y === p.y)`. */
  function FindAt(skills: seq<Skill>, p: Point): (r: Option<Skill>)
    ensures r.None? <==> forall i | 0 <= i < |skills| :: PointOf(skills[i]) != p
    ensures r.Some? ==> exists i :: FirstAt(skills, i, p) && skills[i] == r.value
  {
    if skills == [] then None
    else if PointOf(skills[0]) == p then
      assert FirstAt(skills, 0, p);
      Some(skills[0])
    else
      var r := FindAt(skills[1..], p);
      r
  }

  // ---------------------------------------------------------------------------
  // generateConnections
  // ---------------------------------------------------------------------------

  /**
    What one explicit link contributes: nothing when either name is unknown,
    otherwise the edge between the first skills so named, coloured by the
    category of its `from` skill.
  */
  function Resolve(skills: seq<Skill>, link: Link): Option<Connection>
  {
    var fromSkill := FindByName(skills, link.from);
    var toSkill := FindByName(skills, link.to);
    if fromSkill.Some? && toSkill.Some? then
      Some(Connection(PointOf(fromSkill.value), PointOf(toSkill.value), ColorOf(fromSkill.value.category)))
    else
      None
  }

  /**
    A link is dropped exactly when one of its names belongs to no skill;
    otherwise its edge joins the first skills so named and takes the colour
    of the `from` skill's category.
  */
  lemma ResolveExactly(skills: seq<Skill>, link: Link)
    ensures Resolve(skills, link).Some? <==>
      (exists i | 0 <= i < |skills| :: skills[i].name == link.from) &&
      (exists j | 0 <= j < |skills| :: skills[j].name == link.to)
    ensures Resolve(skills, link).Some? ==> exists i, j ::
      && FirstNamed(skills, i, link.from) && FirstNamed(skills, j, link.to)
      && Resolve(skills, link).value == Connection(PointOf(skills[i]), PointOf(skills[j]), ColorOf(skills[i].category))
  {
  }

  function Emitted(c: Option<Connection>): seq<Connection>
  {
    if c.Some? then [c.value] else []
  }

  /** The connection list that `generateConnections` builds from `links`. */
  function Connections(skills: seq<Skill>, links: seq<Link>): (r: seq<Connection>)
    ensures |r| <= |links|
    decreases |links|
  {
    if links == [] then []
    else Connections(skills, links[..|links| - 1]) + Emitted(Resolve(skills, links[|links| - 1]))
  }

  /**
    The connection list of a concatenation is the concatenation of the lists:
    with `ConnectionsOfOne`, every link contributes at most one connection,
    in the order of the links.
  */
  lemma {:induction false} ConnectionsAppend(skills: seq<Skill>, a: seq<Link>, b: seq<Link>)
    ensures Connections(skills, a + b) == Connections(skills, a) + Connections(skills, b)
    decreases |b|
  {
    if b == [] {
      assert a + b == a;
    } else {
      var b' := b[..|b| - 1];
      assert (a + b)[..|a + b| - 1] == a + b';
      assert (a + b)[|a + b| - 1] == b[|b| - 1];
      ConnectionsAppend(skills, a, b');
    }
  }

  /** When every link resolves, no link is dropped. */
  lemma {:induction false} ConnectionsAllResolved(skills: seq<Skill>, links: seq<Link>)
    requires forall k | 0 <= k < |links| :: Resolve(skills, links[k]).Some?
    ensures |Connections(skills, links)| == |links|
    decreases |links|
  {
    if links != [] {
      var init := links[..|links| - 1];
      assert forall k | 0 <= k < |init| :: init[k] == links[k];
      ConnectionsAllResolved(skills, init);
    }
  }

  lemma ConnectionsSnoc(skills: seq<Skill>, links: seq<Link>, link: Link)
    ensures Connections(skills, links + [link]) == Connections(skills, links) + Emitted(Resolve(skills, link))
  {
    assert (links + [link])[..|links|] == links;
  }

  lemma ConnectionsOfOne(skills: seq<Skill>, link: Link)
    ensures Connections(skills, [link]) == Emitted(Resolve(skills, link))
  {
    assert [link][..0] == [];
  }

  /** An edge's colour depends on its `from` skill only, never on its `to` skill. */
  lemma ColourIgnoresTo(skills: seq<Skill>, from: string, to1: string, to2: string)
    requires Resolve(skills, Link(from, to1)).Some? && Resolve(skills, Link(from, to2)).Some?
    ensures Resolve(skills, Link(from, to1)).value.color == Resolve(skills, Link(from, to2)).value.color
  {
  }

  /** `generateConnections`: one `forEach` over the links, pushing each resolved edge. */
  method GenerateConnections(skills: seq<Skill>, links: seq<Link>) returns (connections: seq<Connection>)
    ensures connections == Connections(skills, links)
  {
    connections := [];
    for k := 0 to |links|
      invariant connections == Connections(skills, links[..k])
    {
      var conn := links[k];
      var fromSkill := FindByName(skills, conn.from);
      var toSkill := FindByName(skills, conn.to);
      assert links[..k + 1] == links[..k] + [conn];
      ConnectionsSnoc(skills, links[..k], conn);
      if fromSkill.Some? && toSkill.Some? {
        connections := connections + [Connection(PointOf(fromSkill.value), PointOf(toSkill.value), ColorOf(fromSkill.value.category))];
      }
    }
    assert links[..|links|] == links;
  }

  // ---------------------------------------------------------------------------
  // The `categories` memo
  // ---------------------------------------------------------------------------

  /** `skills.map((s) => s.category)`. */
  function CategoryNames(skills: seq<Skill>): (r: seq<string>)
    ensures |r| == |skills|
    ensures forall i | 0 <= i < |skills| :: r[i] == skills[i].category
  {
    seq(|skills|, i requires 0 <= i < |skills| => skills[i].category)
  }

  /** `[...new Set(xs)]`: a value is added the first time it is met. */
  function Distinct(xs: seq<string>): (r: seq<string>)
    ensures forall i, j | 0 <= i < j < |r| :: r[i] != r[j]
    ensures forall x :: x in r <==> x in xs
    decreases |xs|
  {
    if xs == [] then []
    else
      var d := Distinct(xs[..|xs| - 1]);
      if xs[|xs| - 1] in d then d else d + [xs[|xs| - 1]]
  }

  /** `x` appears in `xs` strictly before the first appearance of `y`. */
  ghost predicate AppearsBefore(xs: seq<string>, x: string, y: string)
  {
    exists a | 0 <= a < |xs| :: xs[a] == x && y !in xs[..a + 1]
  }

  /** The distinct values keep the order in which they first appear. */
  lemma {:induction false} DistinctKeepsFirstAppearanceOrder(xs: seq<string>)
    ensures forall i, j | 0 <= i < j < |Distinct(xs)| :: AppearsBefore(xs, Distinct(xs)[i], Distinct(xs)[j])
    decreases |xs|
  {
    if xs != [] {
      var init, y := xs[..|xs| - 1], xs[|xs| - 1];
      DistinctKeepsFirstAppearanceOrder(init);
      var d, r := Distinct(init), Distinct(xs);
      forall i, j | 0 <= i < j < |r| ensures AppearsBefore(xs, r[i], r[j]) {
        assert r == if y in d then d else d + [y];
        assert r[i] == d[i];
        if j < |d| {
          assert r[j] == d[j];
          assert AppearsBefore(init, d[i], d[j]);
          var a :| 0 <= a < |init| && init[a] == d[i] && d[j] !in init[..a + 1];
          assert xs[..a + 1] == init[..a + 1];
        } else {
          assert y !in d;
          assert r[j] == y && y !in init && d[i] in init;
          var a :| 0 <= a < |init| && init[a] == r[i];
          assert xs[..a + 1] == init[..a + 1];
        }
      }
    }
  }

  /** `skills.filter((s) => s.category === category)`. */
  function SkillsIn(skills: seq<Skill>, category: string): (r: seq<Skill>)
    ensures |r| <= |skills|
    ensures forall s | s in r :: s in skills && s.category == category
    ensures forall s | s in skills && s.category == category :: s in r
    decreases |skills|
  {
    if skills == [] then []
    else
      var last := skills[|skills| - 1];
      SkillsIn(skills[..|skills| - 1], category) + (if last.category == category then [last] else [])
  }

  /** Filtering keeps the original order: it distributes over concatenation. */
  lemma {:induction false} SkillsInAppend(a: seq<Skill>, b: seq<Skill>, category: string)
    ensures SkillsIn(a + b, category) == SkillsIn(a, category) + SkillsIn(b, category)
    decreases |b|
  {
    if b == [] {
      assert a + b == a;
    } else {
      var b' := b[..|b| - 1];
      assert (a + b)[..|a + b| - 1] == a + b';
      SkillsInAppend(a, b', category);
    }
  }

  /** The legend entry for one category: `{ name, color, count }`. */
  function Entry(skills: seq<Skill>, name: string): SkillLegend.Category
  {
    SkillLegend.Category(name, ColorOf(name), |SkillsIn(skills, name)|)
  }

  /** `cats.map((cat) => ...)`. */
  function CategoryEntries(skills: seq<Skill>, names: seq<string>): seq<SkillLegend.Category>
  {
    seq(|names|, i requires 0 <= i < |names| => Entry(skills, names[i]))
  }

  /** The `categories` memo. */
  function Categories(skills: seq<Skill>): seq<SkillLegend.Category>
  {
    CategoryEntries(skills, Distinct(CategoryNames(skills)))
  }

  /** No category is listed twice. */
  lemma CategoriesDistinct(skills: seq<Skill>)
    ensures SkillLegend.DistinctNames(Categories(skills))
  {
  }

  /** Every skill's category is listed. */
  lemma CategoriesCoverSkills(skills: seq<Skill>)
    ensures forall s | s in skills ::
      exists i | 0 <= i < |Categories(skills)| :: Categories(skills)[i].name == s.category
  {
    var names := Distinct(CategoryNames(skills));
    var r := Categories(skills);
    forall s | s in skills ensures exists i | 0 <= i < |r| :: r[i].name == s.category {
      var k :| 0 <= k < |skills| && skills[k] == s;
      assert CategoryNames(skills)[k] == s.category;
      assert s.category in names;
      var i :| 0 <= i < |names| && names[i] == s.category;
      assert r[i].name == s.category;
    }
  }

  /**
    Every listed category is the category of some skill, and carries its
    colour and the (positive) number of skills in it.
  */
  lemma CategoriesCountSkills(skills: seq<Skill>)
    ensures forall i | 0 <= i < |Categories(skills)| ::
      && (exists s | s in skills :: s.category == Categories(skills)[i].name)
      && Categories(skills)[i].color == ColorOf(Categories(skills)[i].name)
      && Categories(skills)[i].count == |SkillsIn(skills, Categories(skills)[i].name)| > 0
  {
    var names := Distinct(CategoryNames(skills));
    var r := Categories(skills);
    forall i | 0 <= i < |r|
      ensures exists s | s in skills :: s.category == r[i].name
      ensures |SkillsIn(skills, r[i].name)| > 0
    {
      assert names[i] in CategoryNames(skills);
      var k :| 0 <= k < |skills| && CategoryNames(skills)[k] == names[i];
      assert skills[k] in SkillsIn(skills, names[i]);
    }
  }

  /** The first-appearance order of the legend entries. */
  lemma CategoriesInFirstAppearanceOrder(skills: seq<Skill>)
    ensures forall i, j | 0 <= i < j < |Categories(skills)| ::
      AppearsBefore(CategoryNames(skills), Categories(skills)[i].name, Categories(skills)[j].name)
  {
    DistinctKeepsFirstAppearanceOrder(CategoryNames(skills));
  }

  /** The sum of the legend's counts. */
  function TotalCount(categories: seq<SkillLegend.Category>): nat
    decreases |categories|
  {
    if categories == [] then 0
    else TotalCount(categories[..|categories| - 1]) + categories[|categories| - 1].count
  }

  /** How often `x` occurs in `xs`. */
  function Occurrences(xs: seq<string>, x: string): nat
    decreases |xs|
  {
    if xs == [] then 0
    else Occurrences(xs[..|xs| - 1], x) + (if xs[|xs| - 1] == x then 1 else 0)
  }

  lemma {:induction false} OccurrencesOfDistinct(xs: seq<string>, x: string)
    requires forall i, j | 0 <= i < j < |xs| :: xs[i] != xs[j]
    ensures Occurrences(xs, x) == if x in xs then 1 else 0
    decreases |xs|
  {
    if xs != [] {
      var init := xs[..|xs| - 1];
      OccurrencesOfDistinct(init, x);
      assert x in xs <==> x in init || xs[|xs| - 1] == x;
      assert xs[|xs| - 1] == x ==> x !in init;
    }
  }

  /** Appending one skill raises the total by the number of entries named after its category. */
  lemma {:induction false} TotalCountAppendSkill(skills: seq<Skill>, s: Skill, names: seq<string>)
    ensures TotalCount(CategoryEntries(skills + [s], names))
      == TotalCount(CategoryEntries(skills, names)) + Occurrences(names, s.category)
    decreases |names|
  {
    if names != [] {
      var init, name := names[..|names| - 1], names[|names| - 1];
      assert names == init + [name];
      TotalCountAppendSkill(skills, s, init);
      CategoryEntriesSnoc(skills + [s], init, name);
      CategoryEntriesSnoc(skills, init, name);
      TotalCountSnoc(CategoryEntries(skills + [s], init), Entry(skills + [s], name));
      TotalCountSnoc(CategoryEntries(skills, init), Entry(skills, name));
      SkillsInSnoc(skills, s, name);
    }
  }

  lemma TotalCountSnoc(categories: seq<SkillLegend.Category>, c: SkillLegend.Category)
    ensures TotalCount(categories + [c]) == TotalCount(categories) + c.count
  {
    assert (categories + [c])[..|categories|] == categories;
  }

  lemma SkillsInSnoc(skills: seq<Skill>, s: Skill, category: string)
    ensures |SkillsIn(skills + [s], category)| == |SkillsIn(skills, category)| + (if s.category == category then 1 else 0)
  {
    assert (skills + [s])[..|skills|] == skills;
  }

  lemma DistinctSnoc(xs: seq<string>, y: string)
    ensures Distinct(xs + [y]) == if y in Distinct(xs) then Distinct(xs) else Distinct(xs) + [y]
  {
    assert (xs + [y])[..|xs|] == xs;
  }

  lemma NoSkillsOfUnlistedCategory(skills: seq<Skill>, category: string)
    requires category !in CategoryNames(skills)
    ensures SkillsIn(skills, category) == []
  {
  }

  /** Appending a skill of an already listed category adds one to that category's count. */
  lemma TotalCountOldCategory(init: seq<Skill>, s: Skill)
    requires s.category in Distinct(CategoryNames(init))
    ensures TotalCount(Categories(init + [s])) == TotalCount(Categories(init)) + 1
  {
    var d := Distinct(CategoryNames(init));
    assert CategoryNames(init + [s]) == CategoryNames(init) + [s.category];
    DistinctSnoc(CategoryNames(init), s.category);
    assert Categories(init + [s]) == CategoryEntries(init + [s], d);
    TotalCountAppendSkill(init, s, d);
    OccurrencesOfDistinct(d, s.category);
  }

  lemma CategoryEntriesSnoc(skills: seq<Skill>, names: seq<string>, y: string)
    ensures CategoryEntries(skills, names + [y]) == CategoryEntries(skills, names) + [Entry(skills, y)]
  {
  }

  /** The legend of a list whose last skill opens a new category. */
  lemma CategoriesOfNewCategory(init: seq<Skill>, s: Skill)
    requires s.category !in Distinct(CategoryNames(init))
    ensures Categories(init + [s])
      == CategoryEntries(init + [s], Distinct(CategoryNames(init))) + [Entry(init + [s], s.category)]
  {
    assert CategoryNames(init + [s]) == CategoryNames(init) + [s.category];
    DistinctSnoc(CategoryNames(init), s.category);
    CategoryEntriesSnoc(init + [s], Distinct(CategoryNames(init)), s.category);
  }

  /** Appending a skill of a new category adds an entry of count one. */
  lemma TotalCountNewCategory(init: seq<Skill>, s: Skill)
    requires s.category !in Distinct(CategoryNames(init))
    ensures TotalCount(Categories(init + [s])) == TotalCount(Categories(init)) + 1
  {
    var skills, y := init + [s], s.category;
    var d := Distinct(CategoryNames(init));
    CategoriesOfNewCategory(init, s);
    TotalCountSnoc(CategoryEntries(skills, d), Entry(skills, y));
    TotalCountAppendSkill(init, s, d);
    OccurrencesOfDistinct(d, y);
    SkillsInSnoc(init, s, y);
    NoSkillsOfUnlistedCategory(init, y);
  }

  /** The legend's counts add up to the number of skills (the "N technologies" line). */
  lemma {:induction false} CategoryCountsSum(skills: seq<Skill>)
    ensures TotalCount(Categories(skills)) == |skills|
    decreases |skills|
  {
    if skills != [] {
      var init, s := skills[..|skills| - 1], skills[|skills| - 1];
      assert skills == init + [s];
      CategoryCountsSum(init);
      if s.category in Distinct(CategoryNames(init)) {
        TotalCountOldCategory(init, s);
      } else {
        TotalCountNewCategory(init, s);
      }
    }
  }

  // ---------------------------------------------------------------------------
  // filteredSkills and filteredConnections
  // ---------------------------------------------------------------------------

  /** `activeCategory ? ... : ...`: an empty string is falsy and filters nothing. */
  predicate IsFiltering(active: Option<string>)
  {
    active.Some? && active.value != ""
  }

  /** `filteredSkills`. */
  function FilteredSkills(skills: seq<Skill>, active: Option<string>): (r: seq<Skill>)
    ensures !IsFiltering(active) ==> r == skills
    ensures IsFiltering(active) ==> forall s :: s in r <==> s in skills && s.category == active.value
    ensures IsFiltering(active) ==> |r| == |SkillsIn(skills, active.value)|
  {
    if IsFiltering(active) then SkillsIn(skills, active.value) else skills
  }

  /**
    The test in `filteredConnections`: the skill found at either end's
    coordinates is in `category` (`undefined === category` is false).
  */
  predicate Touches(skills: seq<Skill>, c: Connection, category: string)
  {
    || (var s := FindAt(skills, c.from); s.Some? && s.value.category == category)
    || (var s := FindAt(skills, c.to); s.Some? && s.value.category == category)
  }

  function ConnectionsTouching(skills: seq<Skill>, conns: seq<Connection>, category: string): (r: seq<Connection>)
    ensures |r| <= |conns|
    ensures forall c | c in r :: c in conns && Touches(skills, c, category)
    ensures forall c | c in conns && Touches(skills, c, category) :: c in r
    decreases |conns|
  {
    if conns == [] then []
    else
      var last := conns[|conns| - 1];
      ConnectionsTouching(skills, conns[..|conns| - 1], category)
        + (if Touches(skills, last, category) then [last] else [])
  }

  /** `filteredConnections`. */
  function FilteredConnections(skills: seq<Skill>, conns: seq<Connection>, active: Option<string>): (r: seq<Connection>)
    ensures !IsFiltering(active) ==> r == conns
    ensures IsFiltering(active) ==> forall c :: c in r <==> c in conns && Touches(skills, c, active.value)
  {
    if IsFiltering(active) then ConnectionsTouching(skills, conns, active.value) else conns
  }

  /** No two skills share a position. */
  ghost predicate DistinctCoordinates(skills: seq<Skill>)
  {
    forall i, j | 0 <= i < j < |skills| :: PointOf(skills[i]) != PointOf(skills[j])
  }

  lemma TouchingSnoc(skills: seq<Skill>, conns: seq<Connection>, c: Connection, category: string)
    ensures ConnectionsTouching(skills, conns + [c], category)
      == ConnectionsTouching(skills, conns, category) + (if Touches(skills, c, category) then [c] else [])
  {
    assert (conns + [c])[..|conns|] == conns;
  }

  /** With distinct positions, looking a skill up by its position finds that skill. */
  lemma LookupRecovers(skills: seq<Skill>, k: nat)
    requires DistinctCoordinates(skills)
    requires k < |skills|
    ensures FindAt(skills, PointOf(skills[k])) == Some(skills[k])
  {
  }

  /** The name-level test: the first skill of either name is in `category`. */
  predicate LinkTouches(skills: seq<Skill>, link: Link, category: string)
  {
    || (var s := FindByName(skills, link.from); s.Some? && s.value.category == category)
    || (var s := FindByName(skills, link.to); s.Some? && s.value.category == category)
  }

  function LinksTouching(skills: seq<Skill>, links: seq<Link>, category: string): seq<Link>
    decreases |links|
  {
    if links == [] then []
    else
      var last := links[|links| - 1];
      LinksTouching(skills, links[..|links| - 1], category)
        + (if LinkTouches(skills, last, category) then [last] else [])
  }

  /** With distinct positions, an edge passes the coordinate test exactly when its link passes the name test. */
  lemma EdgeTouchesIffLinkTouches(skills: seq<Skill>, link: Link, category: string)
    requires DistinctCoordinates(skills)
    requires Resolve(skills, link).Some?
    ensures Touches(skills, Resolve(skills, link).value, category) <==> LinkTouches(skills, link, category)
  {
    var fs, ts := FindByName(skills, link.from), FindByName(skills, link.to);
    var i :| FirstNamed(skills, i, link.from) && skills[i] == fs.value;
    var j :| FirstNamed(skills, j, link.to) && skills[j] == ts.value;
    LookupRecovers(skills, i);
    LookupRecovers(skills, j);
    assert Resolve(skills, link).value == Connection(PointOf(skills[i]), PointOf(skills[j]), ColorOf(skills[i].category));
  }

  /**
    With distinct positions, filtering the drawn edges by the skills found at
    their coordinates is the same as drawing only the links whose named
    skills are in the category.
  */
  lemma {:induction false} FilterByCoordinatesIsFilterByName(skills: seq<Skill>, links: seq<Link>, category: string)
    requires DistinctCoordinates(skills)
    ensures ConnectionsTouching(skills, Connections(skills, links), category)
      == Connections(skills, LinksTouching(skills, links, category))
    decreases |links|
  {
    if links != [] {
      var init, l := links[..|links| - 1], links[|links| - 1];
      FilterByCoordinatesIsFilterByName(skills, init, category);
      var kept := LinksTouching(skills, init, category);
      var x := Connections(skills, init);
      var o := Resolve(skills, l);
      assert Connections(skills, links) == x + Emitted(o);
      var touches := LinkTouches(skills, l, category);
      assert LinksTouching(skills, links, category) == kept + (if touches then [l] else []);
      if touches {
        ConnectionsSnoc(skills, kept, l);
      } else {
        assert kept + [] == kept;
      }
      if o.Some? {
        EdgeTouchesIffLinkTouches(skills, l, category);
        TouchingSnoc(skills, x, o.value, category);
        assert x + Emitted(o) == x + [o.value];
      } else {
        assert x + Emitted(o) == x;
        assert Connections(skills, kept) + Emitted(o) == Connections(skills, kept);
      }
    }
  }

  // ---------------------------------------------------------------------------
  // The legend drives the filter
  // ---------------------------------------------------------------------------

  /** Leaving a legend entry restores the unfiltered node and edge views. */
  lemma LeaveShowsEverything(skills: seq<Skill>, conns: seq<Connection>, entry: SkillLegend.Category)
    ensures var active := SkillLegend.HoverRequest(entry, SkillLegend.Leave);
      FilteredSkills(skills, active) == skills && FilteredConnections(skills, conns, active) == conns
  {
  }

  /**
    Entering legend entry `k` shows exactly the skills of its category, as
    many as the entry's count says.
  */
  lemma EnterShowsThatCategory(skills: seq<Skill>, k: nat)
    requires k < |Categories(skills)|
    requires Categories(skills)[k].name != ""
    ensures var entry := Categories(skills)[k];
      var shown := FilteredSkills(skills, SkillLegend.HoverRequest(entry, SkillLegend.Enter));
      && |shown| == entry.count
      && forall s :: s in shown <==> s in skills && s.category == entry.name
  {
  }

  // ---------------------------------------------------------------------------
  // The shipped data
  // ---------------------------------------------------------------------------

  /** The positions of `skills`, in order. */
  function Points(skills: seq<Skill>): (ps: seq<Point>)
    ensures |ps| == |skills|
    ensures forall i | 0 <= i < |skills| :: ps[i] == PointOf(skills[i])
  {
    seq(|skills|, i requires 0 <= i < |skills| => PointOf(skills[i]))
  }

  /** The names of `skills`, in order. */
  function Names(skills: seq<Skill>): (ns: seq<string>)
    ensures |ns| == |skills|
    ensures forall i | 0 <= i < |skills| :: ns[i] == skills[i].name
  {
    seq(|skills|, i requires 0 <= i < |skills| => skills[i].name)
  }

  /** The 39 shipped positions, cluster by cluster. */
  ghost const ShippedPositions: seq<Point> :=
    [Point(48, 12), Point(38, 18), Point(58, 18), Point(32, 10), Point(64, 10), Point(52, 6), Point(44, 22)] +
    [Point(10, 30), Point(20, 30), Point(12, 48), Point(24, 46), Point(8, 56), Point(18, 58), Point(32, 54), Point(10, 66), Point(22, 68)] +
    [Point(78, 28), Point(86, 36), Point(72, 40), Point(90, 44), Point(82, 48), Point(76, 54), Point(88, 56), Point(80, 60), Point(72, 64)] +
    [Point(48, 50), Point(56, 46), Point(40, 60), Point(58, 58), Point(44, 68), Point(54, 66), Point(62, 64)] +
    [Point(76, 82), Point(68, 88), Point(84, 90), Point(72, 94), Point(88, 78), Point(80, 96), Point(90, 86)]

  lemma PointsAppend(a: seq<Skill>, b: seq<Skill>)
    ensures Points(a + b) == Points(a) + Points(b)
  {
  }

  lemma NamesAppend(a: seq<Skill>, b: seq<Skill>)
    ensures Names(a + b) == Names(a) + Names(b)
  {
  }

  lemma LanguagesPoints()
    ensures Points(LanguagesCluster) == [Point(48, 12), Point(38, 18), Point(58, 18), Point(32, 10), Point(64, 10), Point(52, 6), Point(44, 22)]
  {
  }

  lemma FrontendPoints()
    ensures Points(FrontendCluster) == [Point(10, 30), Point(20, 30), Point(12, 48), Point(24, 46), Point(8, 56), Point(18, 58), Point(32, 54), Point(10, 66), Point(22, 68)]
  {
  }

  lemma BackendPoints()
    ensures Points(BackendCluster) == [Point(78, 28), Point(86, 36), Point(72, 40), Point(90, 44), Point(82, 48), Point(76, 54), Point(88, 56), Point(80, 60), Point(72, 64)]
  {
  }

  lemma DatabasePoints()
    ensures Points(DatabaseCluster) == [Point(48, 50), Point(56, 46), Point(40, 60), Point(58, 58), Point(44, 68), Point(54, 66), Point(62, 64)]
  {
  }

  lemma DevOpsPoints()
    ensures Points(DevOpsCluster) == [Point(76, 82), Point(68, 88), Point(84, 90), Point(72, 94), Point(88, 78), Point(80, 96), Point(90, 86)]
  {
  }

  lemma ShippedPoints()
    ensures Points(SkillsData) == ShippedPositions
  {
    LanguagesPoints();
    FrontendPoints();
    BackendPoints();
    DatabasePoints();
    DevOpsPoints();
    PointsAppend(LanguagesCluster, FrontendCluster);
    PointsAppend(LanguagesCluster + FrontendCluster, BackendCluster);
    PointsAppend(LanguagesCluster + FrontendCluster + BackendCluster, DatabaseCluster);
    PointsAppend(LanguagesCluster + FrontendCluster + BackendCluster + DatabaseCluster, DevOpsCluster);
  }

  lemma ShippedPositionsDistinctFrom0()
    ensures forall i, j | 0 <= i < 10 && i < j < |ShippedPositions| :: ShippedPositions[i] != ShippedPositions[j]
  {
    forall i, j | 0 <= i < 10 && i < j < |ShippedPositions| ensures ShippedPositions[i] != ShippedPositions[j] {
      assert i == 0 || i == 1 || i == 2 || i == 3 || i == 4 || i == 5 || i == 6 || i == 7 || i == 8 || i == 9;
      assert j == 1 || j == 2 || j == 3 || j == 4 || j == 5 || j == 6 || j == 7 || j == 8 || j == 9 || j == 10 || j == 11 || j == 12 || j == 13 || j == 14 || j == 15 || j == 16 || j == 17 || j == 18 || j == 19 || j == 20 || j == 21 || j == 22 || j == 23 || j == 24 || j == 25 || j == 26 || j == 27 || j == 28 || j == 29 || j == 30 || j == 31 || j == 32 || j == 33 || j == 34 || j == 35 || j == 36 || j == 37 || j == 38;
    }
  }

  lemma ShippedPositionsDistinctFrom10()
    ensures forall i, j | 10 <= i < 20 && i < j < |ShippedPositions| :: ShippedPositions[i] != ShippedPositions[j]
  {
    forall i, j | 10 <= i < 20 && i < j < |ShippedPositions| ensures ShippedPositions[i] != ShippedPositions[j] {
      assert i == 10 || i == 11 || i == 12 || i == 13 || i == 14 || i == 15 || i == 16 || i == 17 || i == 18 || i == 19;
      assert j == 11 || j == 12 || j == 13 || j == 14 || j == 15 || j == 16 || j == 17 || j == 18 || j == 19 || j == 20 || j == 21 || j == 22 || j == 23 || j == 24 || j == 25 || j == 26 || j == 27 || j == 28 || j == 29 || j == 30 || j == 31 || j == 32 || j == 33 || j == 34 || j == 35 || j == 36 || j == 37 || j == 38;
    }
  }

  lemma ShippedPositionsDistinctFrom20()
    ensures forall i, j | 20 <= i < 30 && i < j < |ShippedPositions| :: ShippedPositions[i] != ShippedPositions[j]
  {
    forall i, j | 20 <= i < 30 && i < j < |ShippedPositions| ensures ShippedPositions[i] != ShippedPositions[j] {
      assert i == 20 || i == 21 || i == 22 || i == 23 || i == 24 || i == 25 || i == 26 || i == 27 || i == 28 || i == 29;
      assert j == 21 || j == 22 || j == 23 || j == 24 || j == 25 || j == 26 || j == 27 || j == 28 || j == 29 || j == 30 || j == 31 || j == 32 || j == 33 || j == 34 || j == 35 || j == 36 || j == 37 || j == 38;
    }
  }

  lemma ShippedPositionsDistinctFrom30()
    ensures forall i, j | 30 <= i < 39 && i < j < |ShippedPositions| :: ShippedPositions[i] != ShippedPositions[j]
  {
    forall i, j | 30 <= i < 39 && i < j < |ShippedPositions| ensures ShippedPositions[i] != ShippedPositions[j] {
      assert i == 30 || i == 31 || i == 32 || i == 33 || i == 34 || i == 35 || i == 36 || i == 37 || i == 38;
      assert j == 31 || j == 32 || j == 33 || j == 34 || j == 35 || j == 36 || j == 37 || j == 38;
    }
  }

  lemma ShippedPositionsDistinct()
    ensures forall i, j | 0 <= i < j < |ShippedPositions| :: ShippedPositions[i] != ShippedPositions[j]
  {
    ShippedPositionsDistinctFrom0();
    ShippedPositionsDistinctFrom10();
    ShippedPositionsDistinctFrom20();
    ShippedPositionsDistinctFrom30();
  }

  /** No two shipped skills share a position, so the coordinate lookup is exact. */
  lemma ShippedCoordinatesDistinct()
    ensures DistinctCoordinates(SkillsData)
  {
    ShippedPoints();
    ShippedPositionsDistinct();
    forall i, j | 0 <= i < j < |SkillsData| ensures PointOf(SkillsData[i]) != PointOf(SkillsData[j]) {
      assert PointOf(SkillsData[i]) == ShippedPositions[i];
      assert PointOf(SkillsData[j]) == ShippedPositions[j];
    }
  }

  /** Every link of `LanguagesLinks` names two skills of `LanguagesCluster`. */
  lemma LanguagesLinksStayInCluster()
    ensures forall l | l in LanguagesLinks :: l.from in Names(LanguagesCluster) && l.to in Names(LanguagesCluster)
  {
    assert Names(LanguagesCluster) == ["TypeScript", "JavaScript", "Python", "C++", "C", "Golang", "SQL"];
  }

  /** Every link of `FrontendLinks` names two skills of `FrontendCluster`. */
  lemma FrontendLinksStayInCluster()
    ensures forall l | l in FrontendLinks :: l.from in Names(FrontendCluster) && l.to in Names(FrontendCluster)
  {
    assert Names(FrontendCluster) == ["React", "Next.js", "React Native", "Redux", "Recoil", "Zustand", "TailwindCSS", "MUI", "Shadcn"];
  }

  /** Every link of `BackendLinks` names two skills of `BackendCluster`. */
  lemma BackendLinksStayInCluster()
    ensures forall l | l in BackendLinks :: l.from in Names(BackendCluster) && l.to in Names(BackendCluster)
  {
    assert Names(BackendCluster) == ["Node.js", "NestJS", "Express", "WebSocket", "WebRTC", "GraphQL", "Kafka", "LLMs", "LangChain"];
  }

  /** Every link of `DatabaseLinks` names two skills of `DatabaseCluster`. */
  lemma DatabaseLinksStayInCluster()
    ensures forall l | l in DatabaseLinks :: l.from in Names(DatabaseCluster) && l.to in Names(DatabaseCluster)
  {
    assert Names(DatabaseCluster) == ["PostgreSQL", "MongoDB", "Firebase", "Prisma ORM", "MySQL", "Supabase", "Redis"];
  }

  /** Every link of `DevOpsLinks` names two skills of `DevOpsCluster`. */
  lemma DevOpsLinksStayInCluster()
    ensures forall l | l in DevOpsLinks :: l.from in Names(DevOpsCluster) && l.to in Names(DevOpsCluster)
  {
    assert Names(DevOpsCluster) == ["AWS", "Docker", "CI/CD", "Cloudflare", "Vercel", "Netlify", "Serverless"];
  }

  /** A link whose two names both occur among `skills` is drawn. */
  lemma NamedLinkResolves(skills: seq<Skill>, link: Link)
    requires link.from in Names(skills) && link.to in Names(skills)
    ensures Resolve(skills, link).Some?
  {
    var i :| 0 <= i < |skills| && Names(skills)[i] == link.from;
    var j :| 0 <= j < |skills| && Names(skills)[j] == link.to;
    ResolveExactly(skills, link);
  }

  /** Every name of every cluster is a name of `skillsData`. */
  lemma ClusterNamesAreShipped()
    ensures forall n | n in Names(LanguagesCluster) || n in Names(FrontendCluster) || n in Names(BackendCluster)
      || n in Names(DatabaseCluster) || n in Names(DevOpsCluster) :: n in Names(SkillsData)
  {
    NamesAppend(LanguagesCluster, FrontendCluster);
    NamesAppend(LanguagesCluster + FrontendCluster, BackendCluster);
    NamesAppend(LanguagesCluster + FrontendCluster + BackendCluster, DatabaseCluster);
    NamesAppend(LanguagesCluster + FrontendCluster + BackendCluster + DatabaseCluster, DevOpsCluster);
  }

  lemma LanguagesLinksResolve()
    ensures forall l | l in LanguagesLinks :: Resolve(SkillsData, l).Some?
  {
    LanguagesLinksStayInCluster();
    ClusterNamesAreShipped();
    forall l | l in LanguagesLinks ensures Resolve(SkillsData, l).Some? {
      NamedLinkResolves(SkillsData, l);
    }
  }

  lemma FrontendLinksResolve()
    ensures forall l | l in FrontendLinks :: Resolve(SkillsData, l).Some?
  {
    FrontendLinksStayInCluster();
    ClusterNamesAreShipped();
    forall l | l in FrontendLinks ensures Resolve(SkillsData, l).Some? {
      NamedLinkResolves(SkillsData, l);
    }
  }

  lemma BackendLinksResolve()
    ensures forall l | l in BackendLinks :: Resolve(SkillsData, l).Some?
  {
    BackendLinksStayInCluster();
    ClusterNamesAreShipped();
    forall l | l in BackendLinks ensures Resolve(SkillsData, l).Some? {
      NamedLinkResolves(SkillsData, l);
    }
  }

  lemma DatabaseLinksResolve()
    ensures forall l | l in DatabaseLinks :: Resolve(SkillsData, l).Some?
  {
    DatabaseLinksStayInCluster();
    ClusterNamesAreShipped();
    forall l | l in DatabaseLinks ensures Resolve(SkillsData, l).Some? {
      NamedLinkResolves(SkillsData, l);
    }
  }

  lemma DevOpsLinksResolve()
    ensures forall l | l in DevOpsLinks :: Resolve(SkillsData, l).Some?
  {
    DevOpsLinksStayInCluster();
    ClusterNamesAreShipped();
    forall l | l in DevOpsLinks ensures Resolve(SkillsData, l).Some? {
      NamedLinkResolves(SkillsData, l);
    }
  }

  /** Every shipped link names two shipped skills, so all 42 links are drawn. */
  lemma ShippedLinksAllResolve()
    ensures forall k | 0 <= k < |ExplicitConnections| :: Resolve(SkillsData, ExplicitConnections[k]).Some?
    ensures |Connections(SkillsData, ExplicitConnections)| == |ExplicitConnections| == 42
  {
    LanguagesLinksResolve();
    FrontendLinksResolve();
    BackendLinksResolve();
    DatabaseLinksResolve();
    DevOpsLinksResolve();
    forall k | 0 <= k < |ExplicitConnections| ensures Resolve(SkillsData, ExplicitConnections[k]).Some? {
      var l := ExplicitConnections[k];
      assert l in LanguagesLinks || l in FrontendLinks || l in BackendLinks || l in DatabaseLinks || l in DevOpsLinks;
    }
    ConnectionsAllResolved(SkillsData, ExplicitConnections);
  }

  /**
    On the shipped data, hovering a category keeps exactly the drawn edges
    whose links name a skill of that category.
  */
  lemma ShippedFilteredConnections(category: string)
    requires category != ""
    ensures FilteredConnections(SkillsData, Connections(SkillsData, ExplicitConnections), Some(category))
      == Connections(SkillsData, LinksTouching(SkillsData, ExplicitConnections, category))
  {
    ShippedCoordinatesDistinct();
    FilterByCoordinatesIsFilterByName(SkillsData, ExplicitConnections, category);
  }

  // The category of every skill, cluster by cluster.

  lemma LanguagesCategory()
    ensures CategoryNames(LanguagesCluster) == ["Languages", "Languages", "Languages", "Languages", "Languages", "Languages", "Languages"]
  {
  }

  lemma FrontendCategory()
    ensures CategoryNames(FrontendCluster) == ["Frontend", "Frontend", "Frontend", "Frontend", "Frontend", "Frontend", "Frontend", "Frontend", "Frontend"]
  {
  }

  lemma BackendCategory()
    ensures CategoryNames(BackendCluster) == ["Backend", "Backend", "Backend", "Backend", "Backend", "Backend", "Backend", "Backend", "Backend"]
  {
  }

  lemma DatabaseCategory()
    ensures CategoryNames(DatabaseCluster) == ["Database", "Database", "Database", "Database", "Database", "Database", "Database"]
  {
  }

  lemma DevOpsCategory()
    ensures CategoryNames(DevOpsCluster) == ["DevOps", "DevOps", "DevOps", "DevOps", "DevOps", "DevOps", "DevOps"]
  {
  }

  lemma CategoryNamesAppend(a: seq<Skill>, b: seq<Skill>)
    ensures CategoryNames(a + b) == CategoryNames(a) + CategoryNames(b)
  {
  }

  /** Filtering a run of one category keeps all of it or none of it. */
  lemma {:induction false} SkillsInUniform(skills: seq<Skill>, c: string, category: string)
    requires forall i | 0 <= i < |skills| :: skills[i].category == c
    ensures SkillsIn(skills, category) == if c == category then skills else []
    decreases |skills|
  {
    if skills != [] {
      var init := skills[..|skills| - 1];
      SkillsInUniform(init, c, category);
      assert init + [skills[|skills| - 1]] == skills;
    }
  }

  /** Appending a run of one value adds that value once, unless it was already there. */
  lemma {:induction false} DistinctAppendUniform(xs: seq<string>, ys: seq<string>, c: string)
    requires |ys| > 0 && forall i | 0 <= i < |ys| :: ys[i] == c
    ensures Distinct(xs + ys) == if c in xs then Distinct(xs) else Distinct(xs) + [c]
    decreases |ys|
  {
    var init := ys[..|ys| - 1];
    assert ys == init + [c];
    assert xs + ys == (xs + init) + [c];
    DistinctSnoc(xs + init, c);
    if |ys| > 1 {
      DistinctAppendUniform(xs, init, c);
    } else {
      assert xs + init == xs;
    }
  }

  predicate Uniform(xs: seq<string>, c: string)
  {
    |xs| > 0 && forall i | 0 <= i < |xs| :: xs[i] == c
  }

  /** Non-empty runs of different values list those values once each, in order. */
  lemma DistinctOfTwoRuns(a: seq<string>, b: seq<string>, ca: string, cb: string)
    requires Uniform(a, ca) && Uniform(b, cb) && ca != cb
    ensures Distinct(a + b) == [ca, cb]
  {
    DistinctOfOneRun(a, ca);
    DistinctAppendRun(a, b, [ca], cb);
  }

  lemma DistinctOfOneRun(a: seq<string>, ca: string)
    requires Uniform(a, ca)
    ensures Distinct(a) == [ca]
  {
    assert [] + a == a;
    assert Distinct([]) == [];
    DistinctAppendUniform([], a, ca);
  }

  lemma DistinctOfThreeRuns(a: seq<string>, b: seq<string>, c: seq<string>, ca: string, cb: string, cc: string)
    requires Uniform(a, ca) && Uniform(b, cb) && Uniform(c, cc)
    requires ca != cb && ca != cc && cb != cc
    ensures Distinct(a + b + c) == [ca, cb, cc]
  {
    DistinctOfTwoRuns(a, b, ca, cb);
    DistinctAppendRun(a + b, c, [ca, cb], cc);
  }

  lemma DistinctOfFourRuns(a: seq<string>, b: seq<string>, c: seq<string>, d: seq<string>,
                           ca: string, cb: string, cc: string, cd: string)
    requires Uniform(a, ca) && Uniform(b, cb) && Uniform(c, cc) && Uniform(d, cd)
    requires ca != cb && ca != cc && ca != cd
    requires cb != cc && cb != cd && cc != cd
    ensures Distinct(a + b + c + d) == [ca, cb, cc, cd]
  {
    DistinctOfThreeRuns(a, b, c, ca, cb, cc);
    DistinctAppendRun(a + b + c, d, [ca, cb, cc], cd);
  }

  lemma DistinctOfFiveRuns(a: seq<string>, b: seq<string>, c: seq<string>, d: seq<string>, e: seq<string>,
                           ca: string, cb: string, cc: string, cd: string, ce: string)
    requires Uniform(a, ca) && Uniform(b, cb) && Uniform(c, cc) && Uniform(d, cd) && Uniform(e, ce)
    requires ca != cb && ca != cc && ca != cd && ca != ce
    requires cb != cc && cb != cd && cb != ce
    requires cc != cd && cc != ce && cd != ce
    ensures Distinct(a + b + c + d + e) == [ca, cb, cc, cd, ce]
  {
    DistinctOfFourRuns(a, b, c, d, ca, cb, cc, cd);
    DistinctAppendRun(a + b + c + d, e, [ca, cb, cc, cd], ce);
  }

  /** One step of the above: a run of a new value extends the list of values by it. */
  lemma DistinctAppendRun(xs: seq<string>, ys: seq<string>, seen: seq<string>, c: string)
    requires Distinct(xs) == seen && c !in seen
    requires Uniform(ys, c)
    ensures Distinct(xs + ys) == seen + [c]
  {
    DistinctAppendUniform(xs, ys, c);
  }

  /** The category column of the shipped skills, cluster by cluster. */
  lemma ShippedCategoryColumn()
    ensures CategoryNames(SkillsData)
      == CategoryNames(LanguagesCluster) + CategoryNames(FrontendCluster) + CategoryNames(BackendCluster)
       + CategoryNames(DatabaseCluster) + CategoryNames(DevOpsCluster)
  {
    CategoryNamesAppend(LanguagesCluster, FrontendCluster);
    CategoryNamesAppend(LanguagesCluster + FrontendCluster, BackendCluster);
    CategoryNamesAppend(LanguagesCluster + FrontendCluster + BackendCluster, DatabaseCluster);
    CategoryNamesAppend(LanguagesCluster + FrontendCluster + BackendCluster + DatabaseCluster, DevOpsCluster);
  }

  /** The shipped skills fall into five categories, in this order of first appearance. */
  lemma ShippedCategoryNames()
    ensures Distinct(CategoryNames(SkillsData)) == ["Languages", "Frontend", "Backend", "Database", "DevOps"]
  {
    LanguagesCategory();
    FrontendCategory();
    BackendCategory();
    DatabaseCategory();
    DevOpsCategory();
    ShippedCategoryColumn();
    DistinctOfFiveRuns(CategoryNames(LanguagesCluster), CategoryNames(FrontendCluster), CategoryNames(BackendCluster),
                       CategoryNames(DatabaseCluster), CategoryNames(DevOpsCluster),
                       "Languages", "Frontend", "Backend", "Database", "DevOps");
  }

  /** Filtering five runs of one category each keeps exactly the runs of the chosen category. */
  lemma SkillsInFiveRuns(a: seq<Skill>, b: seq<Skill>, c: seq<Skill>, d: seq<Skill>, e: seq<Skill>,
                         ca: string, cb: string, cc: string, cd: string, ce: string, category: string)
    requires forall i | 0 <= i < |a| :: a[i].category == ca
    requires forall i | 0 <= i < |b| :: b[i].category == cb
    requires forall i | 0 <= i < |c| :: c[i].category == cc
    requires forall i | 0 <= i < |d| :: d[i].category == cd
    requires forall i | 0 <= i < |e| :: e[i].category == ce
    ensures SkillsIn(a + b + c + d + e, category)
      == (if ca == category then a else []) + (if cb == category then b else []) + (if cc == category then c else [])
       + (if cd == category then d else []) + (if ce == category then e else [])
  {
    SkillsInAppend(a, b, category);
    SkillsInAppend(a + b, c, category);
    SkillsInAppend(a + b + c, d, category);
    SkillsInAppend(a + b + c + d, e, category);
    SkillsInUniform(a, ca, category);
    SkillsInUniform(b, cb, category);
    SkillsInUniform(c, cc, category);
    SkillsInUniform(d, cd, category);
    SkillsInUniform(e, ce, category);
  }

  /** Hovering a shipped category shows exactly its own cluster. */
  lemma ShippedSkillsIn(category: string)
    ensures SkillsIn(SkillsData, category)
      == (if category == "Languages" then LanguagesCluster else []) + (if category == "Frontend" then FrontendCluster else [])
       + (if category == "Backend" then BackendCluster else []) + (if category == "Database" then DatabaseCluster else [])
       + (if category == "DevOps" then DevOpsCluster else [])
  {
    LanguagesCategory();
    FrontendCategory();
    BackendCategory();
    DatabaseCategory();
    DevOpsCategory();
    SkillsInFiveRuns(LanguagesCluster, FrontendCluster, BackendCluster, DatabaseCluster, DevOpsCluster,
                     "Languages", "Frontend", "Backend", "Database", "DevOps", category);
  }

  /** Each shipped category holds 7 or 9 skills. */
  lemma ShippedCategoryCounts()
    ensures |SkillsIn(SkillsData, "Languages")| == 7
    ensures |SkillsIn(SkillsData, "Frontend")| == 9
    ensures |SkillsIn(SkillsData, "Backend")| == 9
    ensures |SkillsIn(SkillsData, "Database")| == 7
    ensures |SkillsIn(SkillsData, "DevOps")| == 7
  {
    ShippedSkillsIn("Languages");
    ShippedSkillsIn("Frontend");
    ShippedSkillsIn("Backend");
    ShippedSkillsIn("Database");
    ShippedSkillsIn("DevOps");
  }

  lemma ShippedColors()
    ensures ColorOf("Languages") == Some("hsl(263, 70%, 71%)")
    ensures ColorOf("Frontend") == Some("hsl(217, 92%, 69%)")
    ensures ColorOf("Backend") == Some("hsl(160, 84%, 52%)")
    ensures ColorOf("Database") == Some("hsl(330, 71%, 66%)")
    ensures ColorOf("DevOps") == Some("hsl(27, 96%, 61%)")
  {
  }

  lemma CategoryEntriesOfFive(skills: seq<Skill>, a: string, b: string, c: string, d: string, e: string)
    ensures CategoryEntries(skills, [a, b, c, d, e])
      == [Entry(skills, a), Entry(skills, b), Entry(skills, c), Entry(skills, d), Entry(skills, e)]
  {
  }

  /** The five entries of the shipped legend, one by one. */
  lemma ShippedEntries()
    ensures Entry(SkillsData, "Languages") == SkillLegend.Category("Languages", Some("hsl(263, 70%, 71%)"), 7)
    ensures Entry(SkillsData, "Frontend") == SkillLegend.Category("Frontend", Some("hsl(217, 92%, 69%)"), 9)
    ensures Entry(SkillsData, "Backend") == SkillLegend.Category("Backend", Some("hsl(160, 84%, 52%)"), 9)
    ensures Entry(SkillsData, "Database") == SkillLegend.Category("Database", Some("hsl(330, 71%, 66%)"), 7)
    ensures Entry(SkillsData, "DevOps") == SkillLegend.Category("DevOps", Some("hsl(27, 96%, 61%)"), 7)
  {
    ShippedColors();
    ShippedCategoryCounts();
  }

  /** The legend of the shipped page: five entries, in order, with their colours and counts. */
  lemma ShippedCategories()
    ensures Categories(SkillsData) == [
      SkillLegend.Category("Languages", Some("hsl(263, 70%, 71%)"), 7),
      SkillLegend.Category("Frontend", Some("hsl(217, 92%, 69%)"), 9),
      SkillLegend.Category("Backend", Some("hsl(160, 84%, 52%)"), 9),
      SkillLegend.Category("Database", Some("hsl(330, 71%, 66%)"), 7),
      SkillLegend.Category("DevOps", Some("hsl(27, 96%, 61%)"), 7)
    ]
  {
    ShippedCategoryNames();
    CategoryEntriesOfFive(SkillsData, "Languages", "Frontend", "Backend", "Database", "DevOps");
    ShippedEntries();
  }
}
