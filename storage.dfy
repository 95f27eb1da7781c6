/**
 * The in-memory repository of the server (server/storage.ts).
 *
 * `Store` is the repository's state as a value: the projects in insertion order, the
 * profile if there is one, and the skill categories in insertion order. Each operation of
 * the repository is a member function of `Store` that says what it returns and what the
 * next state is. `MemStorage` is the repository object itself, whose fields the operations
 * update in place; each of its methods is tied to the `Store` function of the same name.
 *
 * Fresh ids and the current time are inputs: the source draws ids from a random generator
 * and does not check them, so "ids are distinct" (`Store.Valid`) is kept by every operation
 * exactly when the id it is given is not in use.
 */
module Storage {
  import opened Wrappers
  import opened Json
  import opened Schema
  import opened Codec

  // ---------------------------------------------------------------- ids

  function ProjectIds(s: seq<Project>): (ids: seq<string>)
    ensures |ids| == |s|
    ensures forall i :: 0 <= i < |s| ==> ids[i] == s[i].id
  {
    seq(|s|, i requires 0 <= i < |s| => s[i].id)
  }

  function SkillIds(s: seq<SkillCategory>): (ids: seq<string>)
    ensures |ids| == |s|
    ensures forall i :: 0 <= i < |s| ==> ids[i] == s[i].id
  {
    seq(|s|, i requires 0 <= i < |s| => s[i].id)
  }

  predicate Distinct(ids: seq<string>)
  {
    forall i, j :: 0 <= i < j < |ids| ==> ids[i] != ids[j]
  }

  /** The index of the first occurrence of `id`, or -1 when there is none (`findIndex`). */
  function FindIndex(ids: seq<string>, id: string): (i: int)
    ensures -1 <= i < |ids|
    ensures i == -1 <==> id !in ids
    ensures 0 <= i ==> ids[i] == id && id !in ids[..i]
  {
    if ids == [] then -1
    else if ids[0] == id then 0
    else
      var j := FindIndex(ids[1..], id);
      assert j >= 0 ==> ids[..j + 1] == [ids[0]] + ids[1..][..j];
      if j == -1 then -1 else j + 1
  }

  /** In a list of distinct ids, the only index holding `ids[i]` is `i`. */
  lemma DistinctFind(ids: seq<string>, i: int)
    requires Distinct(ids) && 0 <= i < |ids|
    ensures FindIndex(ids, ids[i]) == i
  {
    var j := FindIndex(ids, ids[i]);
    assert ids[i] !in ids[..j];
  }

  /** `s` without its element at index `i`; the others keep their order. */
  function RemoveAt<T>(s: seq<T>, i: int): (r: seq<T>)
    requires 0 <= i < |s|
    ensures |r| == |s| - 1
    ensures forall j :: 0 <= j < i ==> r[j] == s[j]
    ensures forall j :: i <= j < |r| ==> r[j] == s[j + 1]
  {
    s[..i] + s[i + 1..]
  }

  // ---------------------------------------------------------------- filtering

  /** `r` is `s` with some elements left out and the rest in their order. */
  predicate IsSubsequence<T(==)>(r: seq<T>, s: seq<T>)
    decreases |s|
  {
    if r == [] then true
    else if s == [] then false
    else if r[0] == s[0] then IsSubsequence(r[1..], s[1..])
    else IsSubsequence(r, s[1..])
  }

  /**
   * The elements of `s` that satisfy `keep`, in their order (`Array.prototype.filter`):
   * every element of the result is kept, every kept element of `s` appears as often as in
   * `s`, and the result is a subsequence of `s`.
   */
  function Filter<T(==,!new)>(s: seq<T>, keep: T -> bool): (r: seq<T>)
    ensures forall x :: x in r ==> keep(x)
    ensures forall x :: keep(x) ==> multiset(r)[x] == multiset(s)[x]
    ensures IsSubsequence(r, s)
    decreases |s|
  {
    if s == [] then []
    else
      var rest := Filter(s[1..], keep);
      assert s == [s[0]] + s[1..];
      assert multiset(s) == multiset{s[0]} + multiset(s[1..]);
      if keep(s[0]) then
        assert ([s[0]] + rest)[1..] == rest;
        [s[0]] + rest
      else
        assert rest != [] ==> rest[0] != s[0];
        rest
  }

  // ---------------------------------------------------------------- newest-first sort

  /** Ordered by creation time, newest first (non-increasing `createdAt`). */
  predicate NewestFirst(s: seq<Project>)
  {
    forall i, j :: 0 <= i < j < |s| ==> s[i].createdAt >= s[j].createdAt
  }

  /** The projects created at time `t`, in their order. */
  function CreatedAt(s: seq<Project>, t: int): seq<Project>
  {
    if s == [] then []
    else if s[0].createdAt == t then [s[0]] + CreatedAt(s[1..], t)
    else CreatedAt(s[1..], t)
  }

  /** Puts `p` before the first project that is not newer than it. */
  function InsertNewestFirst(p: Project, s: seq<Project>): (r: seq<Project>)
    ensures multiset(r) == multiset(s) + multiset{p}
    decreases |s|
  {
    if s == [] then [p]
    else if s[0].createdAt <= p.createdAt then [p] + s
    else
      assert s == [s[0]] + s[1..];
      [s[0]] + InsertNewestFirst(p, s[1..])
  }

  /** Inserting into a newest-first list keeps it newest first. */
  lemma {:induction false} InsertKeepsNewestFirst(p: Project, s: seq<Project>)
    requires NewestFirst(s)
    ensures NewestFirst(InsertNewestFirst(p, s))
    decreases |s|
  {
    if s != [] && s[0].createdAt > p.createdAt {
      var rest := InsertNewestFirst(p, s[1..]);
      InsertKeepsNewestFirst(p, s[1..]);
      assert s == [s[0]] + s[1..];
      forall q | q in rest ensures q.createdAt <= s[0].createdAt {
        assert q in multiset(rest);
        assert q == p || q in multiset(s[1..]);
      }
    }
  }

  /**
   * A stable sort of the projects by creation time, newest first: the comparator
   * `(a, b) => b.createdAt - a.createdAt` under the stable `Array.prototype.sort`.
   */
  function SortNewestFirst(s: seq<Project>): (r: seq<Project>)
    ensures multiset(r) == multiset(s)
    ensures NewestFirst(r)
    decreases |s|
  {
    if s == [] then []
    else
      assert s == [s[0]] + s[1..];
      var rest := SortNewestFirst(s[1..]);
      InsertKeepsNewestFirst(s[0], rest);
      InsertNewestFirst(s[0], rest)
  }

  /** Inserting `p` adds it ahead of the projects created at the same time, and moves no other. */
  lemma {:induction false} InsertKeepsTies(p: Project, s: seq<Project>, t: int)
    ensures CreatedAt(InsertNewestFirst(p, s), t)
         == if p.createdAt == t then [p] + CreatedAt(s, t) else CreatedAt(s, t)
    decreases |s|
  {
    if s == [] {
    } else if s[0].createdAt <= p.createdAt {
      var r := [p] + s;
      assert r[1..] == s;
    } else {
      var rest := InsertNewestFirst(p, s[1..]);
      InsertKeepsTies(p, s[1..], t);
      var r := [s[0]] + rest;
      assert r[1..] == rest;
    }
  }

  /** The sort is stable: projects created at the same time keep their stored order. */
  lemma {:induction false} SortIsStable(s: seq<Project>, t: int)
    ensures CreatedAt(SortNewestFirst(s), t) == CreatedAt(s, t)
    decreases |s|
  {
    if s != [] {
      SortIsStable(s[1..], t);
      InsertKeepsTies(s[0], SortNewestFirst(s[1..]), t);
    }
  }

  // ---------------------------------------------------------------- merging

  /** The value of an updated field: the supplied one, or else the old one (`{...a, ...b}`). */
  function Overlay<T>(current: T, supplied: Option<T>): T
  {
    if supplied.Some? then supplied.value else current
  }

  /** An optional field of a spread: the supplied value if present, or else the old one. */
  function OverlayOptional<T>(current: Option<T>, supplied: Option<T>): Option<T>
  {
    if supplied.Some? then supplied else current
  }

  /** `{ ...d, ...patch }` on the insert fields of a project. */
  function ApplyProjectPatch(d: InsertProject, p: ProjectPatch): InsertProject
  {
    InsertProject(
      Overlay(d.title, p.title), Overlay(d.description, p.description),
      Overlay(d.category, p.category), Overlay(d.technologies, p.technologies),
      OverlayOptional(d.imageUrl, p.imageUrl), OverlayOptional(d.githubUrl, p.githubUrl),
      OverlayOptional(d.liveUrl, p.liveUrl), OverlayOptional(d.powerBiUrl, p.powerBiUrl),
      Overlay(d.featured, p.featured), Overlay(d.content, p.content),
      OverlayOptional(d.metrics, p.metrics))
  }

  /** A patched project keeps its id and creation time; the patch has neither. */
  function PatchedProject(q: Project, p: ProjectPatch): (r: Project)
    ensures r.id == q.id && r.createdAt == q.createdAt
  {
    q.(data := ApplyProjectPatch(q.data, p))
  }

  /** One key of a patched project: the patch's entry if it has one, or else the old entry. */
  lemma ProjectPatchSpreadAt(d: InsertProject, p: ProjectPatch, k: string)
    ensures ProjectEntry(ApplyProjectPatch(d, p), k)
         == if ProjectPatchEntry(p, k).Some? then ProjectPatchEntry(p, k) else ProjectEntry(d, k)
  {
    var r := ApplyProjectPatch(d, p);
    if k == "title" {
    } else if k == "description" {
    } else if k == "category" {
    } else if k == "technologies" {
    } else if k == "imageUrl" {
    } else if k == "githubUrl" {
    } else if k == "liveUrl" {
    } else if k == "powerBiUrl" {
    } else if k == "featured" {
    } else if k == "content" {
    } else if k == "metrics" {
    } else {
    }
  }

  /**
   * Patching is a shallow spread of the patch's JSON over the record's JSON: every supplied
   * key takes the supplied value, every other key keeps its old one.
   */
  lemma ProjectPatchSpread(d: InsertProject, p: ProjectPatch)
    ensures EncodeInsertProject(ApplyProjectPatch(d, p)) == EncodeInsertProject(d) + EncodeProjectPatch(p)
  {
    var e := EncodeInsertProject(ApplyProjectPatch(d, p));
    var m := EncodeInsertProject(d) + EncodeProjectPatch(p);
    forall k | k in ProjectKeys
      ensures (k in e <==> k in m) && (k in e ==> e[k] == m[k])
    {
      ProjectPatchSpreadAt(d, p, k);
    }
    assert e.Keys == m.Keys;
  }

  /** `{ ...current, ...d }` on the insert fields of the profile. */
  function MergeProfile(current: InsertProfile, d: InsertProfile): InsertProfile
  {
    InsertProfile(
      d.name, d.title, d.bio,
      OverlayOptional(current.email, d.email), OverlayOptional(current.linkedin, d.linkedin),
      OverlayOptional(current.github, d.github),
      OverlayOptional(current.profileImageUrl, d.profileImageUrl),
      OverlayOptional(current.resumeUrl, d.resumeUrl), d.skills)
  }

  lemma ProfileMergeSpreadAt(current: InsertProfile, d: InsertProfile, k: string)
    ensures ProfileEntry(MergeProfile(current, d), k)
         == if ProfileEntry(d, k).Some? then ProfileEntry(d, k) else ProfileEntry(current, k)
  {
    if k == "name" {
    } else if k == "title" {
    } else if k == "bio" {
    } else if k == "email" {
    } else if k == "linkedin" {
    } else if k == "github" {
    } else if k == "profileImageUrl" {
    } else if k == "resumeUrl" {
    } else if k == "skills" {
    } else {
    }
  }

  /**
   * Updating the profile spreads the new data over the old profile: the validated data has
   * no key for an optional field the body left out, so that field keeps its old value.
   */
  lemma ProfileMergeSpread(current: InsertProfile, d: InsertProfile)
    ensures EncodeInsertProfile(MergeProfile(current, d)) == EncodeInsertProfile(current) + EncodeInsertProfile(d)
  {
    var e := EncodeInsertProfile(MergeProfile(current, d));
    var m := EncodeInsertProfile(current) + EncodeInsertProfile(d);
    forall k | k in ProfileKeys
      ensures (k in e <==> k in m) && (k in e ==> e[k] == m[k])
    {
      ProfileMergeSpreadAt(current, d, k);
    }
    assert e.Keys == m.Keys;
  }

  /** `{ ...d, ...patch }` on the insert fields of a skill category. */
  function ApplySkillPatch(d: InsertSkillCategory, p: SkillCategoryPatch): InsertSkillCategory
  {
    InsertSkillCategory(Overlay(d.name, p.name), Overlay(d.skills, p.skills), Overlay(d.color, p.color))
  }

  function PatchedSkillCategory(c: SkillCategory, p: SkillCategoryPatch): (r: SkillCategory)
    ensures r.id == c.id
  {
    c.(data := ApplySkillPatch(c.data, p))
  }

  lemma SkillPatchSpread(d: InsertSkillCategory, p: SkillCategoryPatch)
    ensures EncodeInsertSkillCategory(ApplySkillPatch(d, p))
         == EncodeInsertSkillCategory(d) + EncodeSkillCategoryPatch(p)
  {
    var e := EncodeInsertSkillCategory(ApplySkillPatch(d, p));
    var m := EncodeInsertSkillCategory(d) + EncodeSkillCategoryPatch(p);
    forall k | k in SkillKeys
      ensures (k in e <==> k in m) && (k in e ==> e[k] == m[k])
    {
    }
    assert e.Keys == m.Keys;
  }

  // ---------------------------------------------------------------- the repository state

  /** The three collections the repository owns. */
  datatype Store = Store(projects: seq<Project>, profile: Option<Profile>, skillCategories: seq<SkillCategory>)
  {
    /** Ids are distinct within each collection. */
    predicate Valid()
    {
      Distinct(ProjectIds(projects)) && Distinct(SkillIds(skillCategories))
    }

    /** `getAllProjects`: a sorted copy, newest first; the stored order is not touched. */
    function AllProjects(): (r: seq<Project>)
      ensures multiset(r) == multiset(projects)
      ensures NewestFirst(r)
    {
      SortNewestFirst(projects)
    }

    /** `getProjectById`: the first project with that id, or None. */
    function ProjectById(id: string): (r: Option<Project>)
      ensures r.None? <==> id !in ProjectIds(projects)
      ensures r.Some? ==> r.value == projects[FindIndex(ProjectIds(projects), id)]
    {
      var i := FindIndex(ProjectIds(projects), id);
      if i == -1 then None else Some(projects[i])
    }

    /** `getProjectsByCategory`: the projects whose category is written `category`, in stored order. */
    function ProjectsByCategory(category: string): (r: seq<Project>)
      ensures forall q :: q in r ==> q.data.category.Name() == category
      ensures forall q: Project :: q.data.category.Name() == category ==> multiset(r)[q] == multiset(projects)[q]
      ensures IsSubsequence(r, projects)
    {
      Filter(projects, (q: Project) => q.data.category.Name() == category)
    }

    /** `getFeaturedProjects`: the featured projects, in stored order. */
    function FeaturedProjects(): (r: seq<Project>)
      ensures forall q :: q in r ==> q.data.featured
      ensures forall q: Project :: q.data.featured ==> multiset(r)[q] == multiset(projects)[q]
      ensures IsSubsequence(r, projects)
    {
      Filter(projects, (q: Project) => q.data.featured)
    }

    /** `createProject`: appends the supplied fields with the new id and creation time. */
    function CreateProject(d: InsertProject, newId: string, now: int): (r: (Store, Project))
      ensures r.1.id == newId && r.1.data == d && r.1.createdAt == now
      ensures r.0 == this.(projects := projects + [r.1])
    {
      var q := Project(newId, d, now);
      (this.(projects := projects + [q]), q)
    }

    /**
     * `updateProject`: on an absent id, None and no change; otherwise the first project with
     * that id is patched in place and returned.
     */
    function UpdateProject(id: string, patch: ProjectPatch): (r: (Store, Option<Project>))
      ensures r.1.None? <==> id !in ProjectIds(projects)
      ensures r.1.None? ==> r.0 == this
      ensures r.1.Some? ==>
        var i := FindIndex(ProjectIds(projects), id);
        0 <= i < |projects| && r.1.value == PatchedProject(projects[i], patch)
        && r.0 == this.(projects := projects[i := r.1.value])
      ensures ProjectIds(r.0.projects) == ProjectIds(projects)
    {
      var i := FindIndex(ProjectIds(projects), id);
      if i == -1 then (this, None)
      else
        var q := PatchedProject(projects[i], patch);
        var s := this.(projects := projects[i := q]);
        assert ProjectIds(s.projects) == ProjectIds(projects);
        (s, Some(q))
    }

    /**
     * `deleteProject`: on an absent id, false and no change; otherwise the first project with
     * that id is removed and the others keep their order.
     */
    function DeleteProject(id: string): (r: (Store, bool))
      ensures r.1 <==> id in ProjectIds(projects)
      ensures !r.1 ==> r.0 == this
      ensures r.1 ==>
        var i := FindIndex(ProjectIds(projects), id);
        0 <= i < |projects| && r.0 == this.(projects := RemoveAt(projects, i))
        && |r.0.projects| == |projects| - 1
    {
      var i := FindIndex(ProjectIds(projects), id);
      if i == -1 then (this, false)
      else (this.(projects := RemoveAt(projects, i)), true)
    }

    /**
     * `updateProfile`: merges the data over an existing profile, keeping its id, or creates
     * the profile with the new id; either way the update time is `now` and the stored
     * profile is the one returned.
     */
    function UpdateProfile(d: InsertProfile, newId: string, now: int): (r: (Store, Profile))
      ensures r.0 == this.(profile := Some(r.1))
      ensures r.1.updatedAt == now
      ensures profile.Some? ==> r.1.id == profile.value.id && r.1.data == MergeProfile(profile.value.data, d)
      ensures profile.None? ==> r.1.id == newId && r.1.data == d
    {
      var p := if profile.Some? then Profile(profile.value.id, MergeProfile(profile.value.data, d), now)
               else Profile(newId, d, now);
      (this.(profile := Some(p)), p)
    }

    /** `createSkillCategory`: appends the supplied fields with the new id. */
    function CreateSkillCategory(d: InsertSkillCategory, newId: string): (r: (Store, SkillCategory))
      ensures r.1.id == newId && r.1.data == d
      ensures r.0 == this.(skillCategories := skillCategories + [r.1])
    {
      var c := SkillCategory(newId, d);
      (this.(skillCategories := skillCategories + [c]), c)
    }

    /** `updateSkillCategory`: as UpdateProject, on the skill categories. */
    function UpdateSkillCategory(id: string, patch: SkillCategoryPatch): (r: (Store, Option<SkillCategory>))
      ensures r.1.None? <==> id !in SkillIds(skillCategories)
      ensures r.1.None? ==> r.0 == this
      ensures r.1.Some? ==>
        var i := FindIndex(SkillIds(skillCategories), id);
        0 <= i < |skillCategories| && r.1.value == PatchedSkillCategory(skillCategories[i], patch)
        && r.0 == this.(skillCategories := skillCategories[i := r.1.value])
      ensures SkillIds(r.0.skillCategories) == SkillIds(skillCategories)
    {
      var i := FindIndex(SkillIds(skillCategories), id);
      if i == -1 then (this, None)
      else
        var c := PatchedSkillCategory(skillCategories[i], patch);
        var s := this.(skillCategories := skillCategories[i := c]);
        assert SkillIds(s.skillCategories) == SkillIds(skillCategories);
        (s, Some(c))
    }

    /** `deleteSkillCategory`: as DeleteProject, on the skill categories. */
    function DeleteSkillCategory(id: string): (r: (Store, bool))
      ensures r.1 <==> id in SkillIds(skillCategories)
      ensures !r.1 ==> r.0 == this
      ensures r.1 ==>
        var i := FindIndex(SkillIds(skillCategories), id);
        0 <= i < |skillCategories| && r.0 == this.(skillCategories := RemoveAt(skillCategories, i))
        && |r.0.skillCategories| == |skillCategories| - 1
    {
      var i := FindIndex(SkillIds(skillCategories), id);
      if i == -1 then (this, false)
      else (this.(skillCategories := RemoveAt(skillCategories, i)), true)
    }
  }

  // ---------------------------------------------------------------- distinct ids

  lemma AppendFreshKeepsDistinct(ids: seq<string>, id: string)
    requires Distinct(ids) && id !in ids
    ensures Distinct(ids + [id])
    ensures FindIndex(ids + [id], id) == |ids|
  {
    var e := ids + [id];
    assert e[|ids|] == id;
    assert forall j :: 0 <= j < |ids| ==> e[j] == ids[j];
    DistinctFind(e, |ids|);
  }

  lemma RemoveAtKeepsDistinct(ids: seq<string>, i: int)
    requires Distinct(ids) && 0 <= i < |ids|
    ensures Distinct(RemoveAt(ids, i))
    ensures ids[i] !in RemoveAt(ids, i)
  {
    var r := RemoveAt(ids, i);
    forall j | 0 <= j < |r| ensures r[j] != ids[i] {
      if j >= i { assert r[j] == ids[j + 1]; }
    }
  }

  /** A project created with an unused id keeps the ids distinct and is found by that id. */
  lemma CreateProjectKeepsValid(st: Store, d: InsertProject, newId: string, now: int)
    requires st.Valid() && newId !in ProjectIds(st.projects)
    ensures st.CreateProject(d, newId, now).0.Valid()
    ensures st.CreateProject(d, newId, now).0.ProjectById(newId) == Some(st.CreateProject(d, newId, now).1)
  {
    var r := st.CreateProject(d, newId, now);
    assert ProjectIds(r.0.projects) == ProjectIds(st.projects) + [newId];
    AppendFreshKeepsDistinct(ProjectIds(st.projects), newId);
  }

  /** After an update the patched project is what a lookup by its id returns. */
  lemma UpdateProjectThenFind(st: Store, id: string, patch: ProjectPatch)
    ensures st.Valid() ==> st.UpdateProject(id, patch).0.Valid()
    ensures st.UpdateProject(id, patch).0.ProjectById(id) == st.UpdateProject(id, patch).1
  {
  }

  /** With distinct ids, a deleted project can no longer be found, and ids stay distinct. */
  lemma DeleteProjectRemovesId(st: Store, id: string)
    requires st.Valid()
    ensures st.DeleteProject(id).0.Valid()
    ensures st.DeleteProject(id).0.ProjectById(id).None?
  {
    var r := st.DeleteProject(id);
    if r.1 {
      var i := FindIndex(ProjectIds(st.projects), id);
      assert ProjectIds(r.0.projects) == RemoveAt(ProjectIds(st.projects), i);
      RemoveAtKeepsDistinct(ProjectIds(st.projects), i);
    }
  }

  /** Without distinct ids, deleting removes only the first of two projects sharing an id. */
  lemma DuplicateIdSurvivesDelete(a: Project, b: Project)
    requires a.id == b.id
    ensures Store([a, b], None, []).DeleteProject(a.id).0.ProjectById(a.id) == Some(b)
  {
    var st := Store([a, b], None, []);
    assert ProjectIds(st.projects) == [a.id, b.id];
    assert RemoveAt(st.projects, 0) == [b];
    assert ProjectIds([b]) == [b.id];
  }

  lemma CreateSkillCategoryKeepsValid(st: Store, d: InsertSkillCategory, newId: string)
    requires st.Valid() && newId !in SkillIds(st.skillCategories)
    ensures st.CreateSkillCategory(d, newId).0.Valid()
    ensures FindIndex(SkillIds(st.CreateSkillCategory(d, newId).0.skillCategories), newId) == |st.skillCategories|
  {
    var r := st.CreateSkillCategory(d, newId);
    assert SkillIds(r.0.skillCategories) == SkillIds(st.skillCategories) + [newId];
    AppendFreshKeepsDistinct(SkillIds(st.skillCategories), newId);
  }

  lemma DeleteSkillCategoryRemovesId(st: Store, id: string)
    requires st.Valid()
    ensures st.DeleteSkillCategory(id).0.Valid()
    ensures id !in SkillIds(st.DeleteSkillCategory(id).0.skillCategories)
  {
    var r := st.DeleteSkillCategory(id);
    if r.1 {
      var i := FindIndex(SkillIds(st.skillCategories), id);
      assert SkillIds(r.0.skillCategories) == RemoveAt(SkillIds(st.skillCategories), i);
      RemoveAtKeepsDistinct(SkillIds(st.skillCategories), i);
    }
  }

  // ---------------------------------------------------------------- seed data

  const Jan15: int := 1705276800000  // 2024-01-15T00:00:00Z in epoch milliseconds
  const Feb20: int := 1708387200000  // 2024-02-20T00:00:00Z
  const Mar10: int := 1710028800000  // 2024-03-10T00:00:00Z

  const SeedProfile: InsertProfile := InsertProfile(
    "Data Scientist",
    "Data Scientist & Analytics Expert",
    "Passionate data scientist with expertise in machine learning, data visualization, and business intelligence. I love turning complex data into actionable insights.",
    Some("your.email@example.com"),
    Some("https://linkedin.com/in/yourprofile"),
    Some("https://github.com/yourusername"),
    None, None,
    ["Python", "R", "SQL", "Power BI", "Tableau", "Machine Learning",
     "Deep Learning", "Data Visualization", "Statistical Analysis",
     "Pandas", "NumPy", "Scikit-learn", "TensorFlow", "PyTorch"])

  const SeedSkill1: InsertSkillCategory := InsertSkillCategory("Data Science & ML",
    ["Python", "R", "Machine Learning", "Deep Learning", "Statistical Analysis", "Scikit-learn", "TensorFlow", "PyTorch"],
    "#3b82f6")
  const SeedSkill2: InsertSkillCategory := InsertSkillCategory("Data Visualization",
    ["Power BI", "Tableau", "Matplotlib", "Seaborn", "Plotly", "D3.js"],
    "#10b981")
  const SeedSkill3: InsertSkillCategory := InsertSkillCategory("Database & Tools",
    ["SQL", "PostgreSQL", "MongoDB", "Pandas", "NumPy", "Jupyter"],
    "#f59e0b")

  const SeedProject1: InsertProject := InsertProject(
    "Customer Churn Prediction",
    "Machine learning model to predict customer churn using advanced analytics",
    MachineLearning,
    ["Python", "Scikit-learn", "Pandas", "Power BI"],
    None, None, None, None,
    true,
    "Developed a comprehensive machine learning solution to predict customer churn with 92% accuracy. The project involved data preprocessing, feature engineering, model selection, and deployment.",
    Some(map["accuracy" := JString("92%"), "precision" := JString("89%"),
             "recall" := JString("94%"), "dataPoints" := JString("50,000+")]))
  const SeedProject2: InsertProject := InsertProject(
    "Sales Performance Dashboard",
    "Interactive Power BI dashboard for sales analytics and KPI tracking",
    PowerBi,
    ["Power BI", "SQL", "DAX", "Excel"],
    None, None, None, Some("https://app.powerbi.com/view?r=your-report-id"),
    true,
    "Created a comprehensive sales dashboard providing real-time insights into sales performance, regional trends, and product analytics. Features interactive visualizations and automated reporting.",
    Some(map["reportViews" := JString("1,200+"), "kpis" := JString("15"),
             "dataSources" := JString("3"), "updateFrequency" := JString("Real-time")]))
  const SeedProject3: InsertProject := InsertProject(
    "Market Trend Analysis",
    "Statistical analysis of market trends using advanced data science techniques",
    Analytics,
    ["R", "Python", "Tableau", "Statistical Modeling"],
    None, None, None, None,
    false,
    "Conducted comprehensive market trend analysis using statistical modeling and time series analysis. Identified key market patterns and provided strategic recommendations.",
    Some(map["timespan" := JString("5 years"), "markets" := JString("12"),
             "accuracy" := JString("87%"), "recommendations" := JString("25")]))

  /**
   * The records the repository starts with. `ids` are the seven generated ids in the order
   * the seeding draws them (profile, three skill categories, three projects); `now` is the
   * profile's update time.
   */
  function Seed(ids: seq<string>, now: int): (st: Store)
    requires |ids| == 7
    ensures |st.projects| == 3 && |st.skillCategories| == 3 && st.profile.Some?
    ensures ProjectIds(st.projects) == ids[4..] && SkillIds(st.skillCategories) == ids[1..4]
  {
    var projects := [Project(ids[4], SeedProject1, Jan15), Project(ids[5], SeedProject2, Feb20),
                     Project(ids[6], SeedProject3, Mar10)];
    var skills := [SkillCategory(ids[1], SeedSkill1), SkillCategory(ids[2], SeedSkill2),
                   SkillCategory(ids[3], SeedSkill3)];
    Store(projects, Some(Profile(ids[0], SeedProfile, now)), skills)
  }

  /** With seven distinct generated ids, the seeded ids are distinct. */
  lemma SeedValid(ids: seq<string>, now: int)
    requires |ids| == 7 && Distinct(ids)
    ensures Seed(ids, now).Valid()
  {
    var st := Seed(ids, now);
    assert forall i :: 0 <= i < 3 ==> ProjectIds(st.projects)[i] == ids[4 + i];
    assert forall i :: 0 <= i < 3 ==> SkillIds(st.skillCategories)[i] == ids[1 + i];
  }

  /** Of three projects of which only the last is not featured, the first two are listed. */
  lemma FeaturedOfThree(a: Project, b: Project, c: Project)
    requires a.data.featured && b.data.featured && !c.data.featured
    ensures Store([a, b, c], None, []).FeaturedProjects() == [a, b]
  {
    var keep := (q: Project) => q.data.featured;
    assert [a, b, c][1..] == [b, c] && [b, c][1..] == [c] && [c][1..] == [];
    assert Filter([c], keep) == [];
    assert Filter([b, c], keep) == [b];
    assert Filter([a, b, c], keep) == [a, b];
  }

  /** Three projects stored oldest first are listed in reverse. */
  lemma SortOfThree(a: Project, b: Project, c: Project)
    requires a.createdAt < b.createdAt < c.createdAt
    ensures Store([a, b, c], None, []).AllProjects() == [c, b, a]
  {
    assert [a, b, c][1..] == [b, c] && [b, c][1..] == [c] && [c][1..] == [];
    assert SortNewestFirst([c]) == [c];
    assert InsertNewestFirst(b, [c]) == [c, b];
    assert SortNewestFirst([b, c]) == [c, b];
    assert InsertNewestFirst(a, [b]) == [b, a];
    assert InsertNewestFirst(a, [c, b]) == [c, b, a];
  }

  /**
   * Of the seeded projects, exactly the first two are featured, and listing them all gives
   * the newest first: March, February, January.
   */
  lemma SeedListings(ids: seq<string>, now: int)
    requires |ids| == 7
    ensures var st := Seed(ids, now);
      st.FeaturedProjects() == st.projects[..2]
      && st.AllProjects() == [st.projects[2], st.projects[1], st.projects[0]]
  {
    var st := Seed(ids, now);
    var p := st.projects;
    assert p[0].data.featured && p[1].data.featured && !p[2].data.featured;
    FeaturedOfThree(p[0], p[1], p[2]);
    SortOfThree(p[0], p[1], p[2]);
    assert st == Store(p, st.profile, st.skillCategories);
    assert p == [p[0], p[1], p[2]];
  }


  // ---------------------------------------------------------------- the repository object

  /** The server's in-memory repository; its three fields are updated in place. */
  class MemStorage {
    var projects: seq<Project>
    var profile: Option<Profile>
    var skillCategories: seq<SkillCategory>

    /** The repository's state as a value. */
    function State(): Store
      reads this
    {
      Store(projects, profile, skillCategories)
    }

    /** Starts from the seed records; `ids` stand for the generated ids, `now` for the clock. */
    constructor (ids: seq<string>, now: int)
      requires |ids| == 7
      ensures State() == Seed(ids, now)
    {
      var st := Seed(ids, now);
      profile := st.profile;
      skillCategories := st.skillCategories;
      projects := st.projects;
    }

    method GetAllProjects() returns (r: seq<Project>)
      ensures r == State().AllProjects()
      ensures multiset(r) == multiset(projects) && NewestFirst(r)
    {
      r := State().AllProjects();
    }

    method GetProjectById(id: string) returns (r: Option<Project>)
      ensures r == State().ProjectById(id)
      ensures r.None? <==> id !in ProjectIds(projects)
    {
      r := State().ProjectById(id);
    }

    method GetProjectsByCategory(category: string) returns (r: seq<Project>)
      ensures r == State().ProjectsByCategory(category)
    {
      r := State().ProjectsByCategory(category);
    }

    method GetFeaturedProjects() returns (r: seq<Project>)
      ensures r == State().FeaturedProjects()
    {
      r := State().FeaturedProjects();
    }

    method CreateProject(d: InsertProject, newId: string, now: int) returns (p: Project)
      modifies this
      ensures (State(), p) == old(State()).CreateProject(d, newId, now)
      ensures projects == old(projects) + [p]
      ensures old(State()).Valid() && newId !in ProjectIds(old(projects)) ==> State().Valid()
    {
      p := Project(newId, d, now);
      projects := projects + [p];
      if old(State()).Valid() && newId !in ProjectIds(old(projects)) {
        CreateProjectKeepsValid(old(State()), d, newId, now);
      }
    }

    method UpdateProject(id: string, patch: ProjectPatch) returns (r: Option<Project>)
      modifies this
      ensures (State(), r) == old(State()).UpdateProject(id, patch)
      ensures r.None? ==> projects == old(projects)
      ensures |projects| == |old(projects)|
    {
      var index := FindIndex(ProjectIds(projects), id);
      if index == -1 {
        return None;
      }
      projects := projects[index := PatchedProject(projects[index], patch)];
      return Some(projects[index]);
    }

    method DeleteProject(id: string) returns (success: bool)
      modifies this
      ensures (State(), success) == old(State()).DeleteProject(id)
      ensures |projects| == if success then |old(projects)| - 1 else |old(projects)|
    {
      var index := FindIndex(ProjectIds(projects), id);
      if index == -1 {
        return false;
      }
      projects := projects[..index] + projects[index + 1..];
      return true;
    }

    method GetProfile() returns (r: Option<Profile>)
      ensures r == profile
    {
      r := profile;
    }

    method UpdateProfile(d: InsertProfile, newId: string, now: int) returns (p: Profile)
      modifies this
      ensures (State(), p) == old(State()).UpdateProfile(d, newId, now)
      ensures profile == Some(p)
    {
      if profile.Some? {
        profile := Some(Profile(profile.value.id, MergeProfile(profile.value.data, d), now));
      } else {
        profile := Some(Profile(newId, d, now));
      }
      p := profile.value;
    }

    method GetAllSkillCategories() returns (r: seq<SkillCategory>)
      ensures r == skillCategories
    {
      r := skillCategories;
    }

    method CreateSkillCategory(d: InsertSkillCategory, newId: string) returns (c: SkillCategory)
      modifies this
      ensures (State(), c) == old(State()).CreateSkillCategory(d, newId)
      ensures skillCategories == old(skillCategories) + [c]
    {
      c := SkillCategory(newId, d);
      skillCategories := skillCategories + [c];
    }

    method UpdateSkillCategory(id: string, patch: SkillCategoryPatch) returns (r: Option<SkillCategory>)
      modifies this
      ensures (State(), r) == old(State()).UpdateSkillCategory(id, patch)
      ensures |skillCategories| == |old(skillCategories)|
    {
      var index := FindIndex(SkillIds(skillCategories), id);
      if index == -1 {
        return None;
      }
      skillCategories := skillCategories[index := PatchedSkillCategory(skillCategories[index], patch)];
      return Some(skillCategories[index]);
    }

    method DeleteSkillCategory(id: string) returns (success: bool)
      modifies this
      ensures (State(), success) == old(State()).DeleteSkillCategory(id)
      ensures |skillCategories| == if success then |old(skillCategories)| - 1 else |old(skillCategories)|
    {
      var index := FindIndex(SkillIds(skillCategories), id);
      if index == -1 {
        return false;
      }
      skillCategories := skillCategories[..index] + skillCategories[index + 1..];
      return true;
    }
  }
}
