/**
 * The HTTP handlers of the API (server/routes.ts), each a function from the repository
 * state and the request's parameters and body to the next state and the response.
 *
 * A handler that writes first validates the body; when validation fails, the response is
 * 400 and the state is the one it was given, so the repository is never called.
 */
module Routes {
  import opened Wrappers
  import opened Json
  import opened Schema
  import opened Codec
  import opened Storage

  /** The `error` member of an error body: a fixed text, or the validation issues. */
  datatype ErrorMessage = Text(text: string) | ValidationFailed(issues: seq<Issue>)

  /** The JSON body of a response. */
  datatype Body =
    | ProjectList(projects: seq<Project>)
    | ProjectBody(project: Project)
    | ProfileBody(profile: Profile)
    | SkillList(skills: seq<SkillCategory>)
    | SkillBody(skill: SkillCategory)
    | ErrorBody(error: ErrorMessage)
    | NoBody

  datatype Response = Response(status: int, body: Body)

  /** What a `catch` block receives: an `Error` with its message, or any other thrown value. */
  datatype Thrown = ErrorObject(message: ErrorMessage) | OtherValue

  /** The `catch` block of the POST and PATCH handlers: any `Error` is a client error. */
  function CatchWrite(e: Thrown, failure: string): (r: Response)
    ensures r.status == 400 <==> e.ErrorObject?
    ensures r.status == 500 <==> e.OtherValue?
    ensures e.ErrorObject? ==> r.body == ErrorBody(e.message)
    ensures e.OtherValue? ==> r.body == ErrorBody(Text(failure))
  {
    match e
    case ErrorObject(m) => Response(400, ErrorBody(m))
    case OtherValue => Response(500, ErrorBody(Text(failure)))
  }

  /** A validation failure, as the `catch` block of a writing handler answers it. */
  function Rejected(issues: seq<Issue>, failure: string): (r: Response)
    ensures r == Response(400, ErrorBody(ValidationFailed(issues)))
  {
    CatchWrite(ErrorObject(ValidationFailed(issues)), failure)
  }

  // ---------------------------------------------------------------- projects

  /** Which listing `GET /api/projects` serves. */
  datatype ProjectQuery = ByCategory(category: string) | FeaturedOnly | Everything

  /** A query parameter is truthy when present and not the empty string. */
  predicate Truthy(param: Option<string>)
  {
    param.Some? && param.value != ""
  }

  /**
   * The branch `GET /api/projects` takes: a truthy `category` wins over `featured`, and only
   * the exact text "true" selects the featured list.
   */
  function ChooseProjectQuery(category: Option<string>, featured: Option<string>): (q: ProjectQuery)
    ensures q.ByCategory? <==> Truthy(category)
    ensures q.ByCategory? ==> q.category == category.value
    ensures q.FeaturedOnly? <==> !Truthy(category) && featured == Some("true")
  {
    if Truthy(category) then ByCategory(category.value)
    else if featured == Some("true") then FeaturedOnly
    else Everything
  }

  /** With a truthy `category`, the `featured` parameter plays no part. */
  lemma CategoryOverridesFeatured(category: string, featured: Option<string>)
    requires category != ""
    ensures ChooseProjectQuery(Some(category), featured) == ByCategory(category)
  {
  }

  /** GET /api/projects */
  function GetProjects(st: Store, category: Option<string>, featured: Option<string>): (r: Response)
    ensures r.status == 200 && r.body.ProjectList?
    ensures Truthy(category) ==> r.body.projects == st.ProjectsByCategory(category.value)
    ensures !Truthy(category) && featured == Some("true") ==> r.body.projects == st.FeaturedProjects()
    ensures !Truthy(category) && featured != Some("true") ==> r.body.projects == st.AllProjects()
  {
    var projects :=
      match ChooseProjectQuery(category, featured)
      case ByCategory(c) => st.ProjectsByCategory(c)
      case FeaturedOnly => st.FeaturedProjects()
      case Everything => st.AllProjects();
    Response(200, ProjectList(projects))
  }

  /** GET /api/projects/:id */
  function GetProject(st: Store, id: string): (r: Response)
    ensures r.status == 404 <==> id !in ProjectIds(st.projects)
    ensures r.status == 404 ==> r.body == ErrorBody(Text("Project not found"))
    ensures r.status != 404 ==> r.status == 200 && r.body == ProjectBody(st.ProjectById(id).value)
  {
    match st.ProjectById(id)
    case None => Response(404, ErrorBody(Text("Project not found")))
    case Some(p) => Response(200, ProjectBody(p))
  }

  /** POST /api/projects */
  function PostProject(st: Store, body: Value, newId: string, now: int): (r: (Store, Response))
    ensures ValidateInsertProject(body).Err? ==>
      r.0 == st && r.1 == Response(400, ErrorBody(ValidationFailed(ValidateInsertProject(body).error)))
    ensures ValidateInsertProject(body).Ok? ==>
      var created := st.CreateProject(ValidateInsertProject(body).value, newId, now);
      r.0 == created.0 && r.1 == Response(201, ProjectBody(created.1))
  {
    match ValidateInsertProject(body)
    case Err(issues) => (st, Rejected(issues, "Failed to create project"))
    case Ok(d) =>
      var (st', p) := st.CreateProject(d, newId, now);
      (st', Response(201, ProjectBody(p)))
  }

  /** PATCH /api/projects/:id */
  function PatchProject(st: Store, id: string, body: Value): (r: (Store, Response))
    ensures ValidateProjectPatch(body).Err? ==>
      r.0 == st && r.1 == Response(400, ErrorBody(ValidationFailed(ValidateProjectPatch(body).error)))
    ensures ValidateProjectPatch(body).Ok? && id !in ProjectIds(st.projects) ==>
      r.0 == st && r.1 == Response(404, ErrorBody(Text("Project not found")))
    ensures ValidateProjectPatch(body).Ok? && id in ProjectIds(st.projects) ==>
      var updated := st.UpdateProject(id, ValidateProjectPatch(body).value);
      r.0 == updated.0 && r.1 == Response(200, ProjectBody(updated.1.value))
  {
    match ValidateProjectPatch(body)
    case Err(issues) => (st, Rejected(issues, "Failed to update project"))
    case Ok(patch) =>
      var (st', p) := st.UpdateProject(id, patch);
      match p
      case None => (st', Response(404, ErrorBody(Text("Project not found"))))
      case Some(q) => (st', Response(200, ProjectBody(q)))
  }

  /** DELETE /api/projects/:id */
  function DeleteProject(st: Store, id: string): (r: (Store, Response))
    ensures id !in ProjectIds(st.projects) ==>
      r.0 == st && r.1 == Response(404, ErrorBody(Text("Project not found")))
    ensures id in ProjectIds(st.projects) ==>
      r.0 == st.DeleteProject(id).0 && r.1 == Response(204, NoBody)
  {
    var (st', success) := st.DeleteProject(id);
    if !success then (st', Response(404, ErrorBody(Text("Project not found"))))
    else (st', Response(204, NoBody))
  }

  // ---------------------------------------------------------------- profile

  /** GET /api/profile */
  function GetProfile(st: Store): (r: Response)
    ensures st.profile.None? ==> r == Response(404, ErrorBody(Text("Profile not found")))
    ensures st.profile.Some? ==> r == Response(200, ProfileBody(st.profile.value))
  {
    match st.profile
    case None => Response(404, ErrorBody(Text("Profile not found")))
    case Some(p) => Response(200, ProfileBody(p))
  }

  /**
   * PATCH /api/profile: validated against the full insert shape, then created or merged.
   * `isEmail` is the email-format check of the schema.
   */
  function PatchProfile(st: Store, body: Value, isEmail: string -> bool, newId: string, now: int): (r: (Store, Response))
    ensures ValidateInsertProfile(body, isEmail).Err? ==>
      r.0 == st
      && r.1 == Response(400, ErrorBody(ValidationFailed(ValidateInsertProfile(body, isEmail).error)))
    ensures ValidateInsertProfile(body, isEmail).Ok? ==>
      var updated := st.UpdateProfile(ValidateInsertProfile(body, isEmail).value, newId, now);
      r.0 == updated.0 && r.1 == Response(200, ProfileBody(updated.1))
      && r.0.profile == Some(updated.1)
  {
    match ValidateInsertProfile(body, isEmail)
    case Err(issues) => (st, Rejected(issues, "Failed to update profile"))
    case Ok(d) =>
      var (st', p) := st.UpdateProfile(d, newId, now);
      (st', Response(200, ProfileBody(p)))
  }

  // ---------------------------------------------------------------- skill categories

  /** GET /api/skills */
  function GetSkills(st: Store): (r: Response)
    ensures r == Response(200, SkillList(st.skillCategories))
  {
    Response(200, SkillList(st.skillCategories))
  }

  /** POST /api/skills */
  function PostSkill(st: Store, body: Value, newId: string): (r: (Store, Response))
    ensures ValidateInsertSkillCategory(body).Err? ==>
      r.0 == st
      && r.1 == Response(400, ErrorBody(ValidationFailed(ValidateInsertSkillCategory(body).error)))
    ensures ValidateInsertSkillCategory(body).Ok? ==>
      var created := st.CreateSkillCategory(ValidateInsertSkillCategory(body).value, newId);
      r.0 == created.0 && r.1 == Response(201, SkillBody(created.1))
  {
    match ValidateInsertSkillCategory(body)
    case Err(issues) => (st, Rejected(issues, "Failed to create skill category"))
    case Ok(d) =>
      var (st', c) := st.CreateSkillCategory(d, newId);
      (st', Response(201, SkillBody(c)))
  }

  /** PATCH /api/skills/:id */
  function PatchSkill(st: Store, id: string, body: Value): (r: (Store, Response))
    ensures ValidateSkillCategoryPatch(body).Err? ==>
      r.0 == st
      && r.1 == Response(400, ErrorBody(ValidationFailed(ValidateSkillCategoryPatch(body).error)))
    ensures ValidateSkillCategoryPatch(body).Ok? && id !in SkillIds(st.skillCategories) ==>
      r.0 == st && r.1 == Response(404, ErrorBody(Text("Skill category not found")))
    ensures ValidateSkillCategoryPatch(body).Ok? && id in SkillIds(st.skillCategories) ==>
      var updated := st.UpdateSkillCategory(id, ValidateSkillCategoryPatch(body).value);
      r.0 == updated.0 && r.1 == Response(200, SkillBody(updated.1.value))
  {
    match ValidateSkillCategoryPatch(body)
    case Err(issues) => (st, Rejected(issues, "Failed to update skill category"))
    case Ok(patch) =>
      var (st', c) := st.UpdateSkillCategory(id, patch);
      match c
      case None => (st', Response(404, ErrorBody(Text("Skill category not found"))))
      case Some(s) => (st', Response(200, SkillBody(s)))
  }

  /** DELETE /api/skills/:id */
  function DeleteSkill(st: Store, id: string): (r: (Store, Response))
    ensures id !in SkillIds(st.skillCategories) ==>
      r.0 == st && r.1 == Response(404, ErrorBody(Text("Skill category not found")))
    ensures id in SkillIds(st.skillCategories) ==>
      r.0 == st.DeleteSkillCategory(id).0 && r.1 == Response(204, NoBody)
  {
    var (st', success) := st.DeleteSkillCategory(id);
    if !success then (st', Response(404, ErrorBody(Text("Skill category not found"))))
    else (st', Response(204, NoBody))
  }

  // ---------------------------------------------------------------- end to end

  /**
   * A project created by POST holds exactly the known keys of the body, with `featured`
   * defaulted, plus the new id and creation time; it is appended after the others.
   */
  lemma PostProjectStoresBody(st: Store, o: map<string, Value>, newId: string, now: int)
    requires PostProject(st, JObject(o), newId, now).1.status == 201
    ensures var r := PostProject(st, JObject(o), newId, now);
      && r.1.body.ProjectBody?
      && var p := r.1.body.project;
      && p.id == newId && p.createdAt == now
      && EncodeInsertProject(p.data) == ProjectDefaults + Restrict(o, ProjectKeys)
      && r.0.projects == st.projects + [p]
  {
    ProjectExact(o, ValidateInsertProject(JObject(o)).value);
  }

  /** With distinct ids and an unused new id, the created project is what GET then returns. */
  lemma PostThenGetProject(st: Store, body: Value, newId: string, now: int)
    requires st.Valid() && newId !in ProjectIds(st.projects)
    requires PostProject(st, body, newId, now).1.status == 201
    ensures var r := PostProject(st, body, newId, now);
      r.0.Valid() && GetProject(r.0, newId) == Response(200, r.1.body)
  {
    CreateProjectKeepsValid(st, ValidateInsertProject(body).value, newId, now);
  }

  /**
   * A successful PATCH answers with the stored project spread with the known keys of the
   * body (`{ ...project, ...body }`); its id and creation time do not change.
   */
  lemma PatchProjectIsSpread(st: Store, id: string, o: map<string, Value>)
    requires PatchProject(st, id, JObject(o)).1.status == 200
    ensures var r := PatchProject(st, id, JObject(o));
      && r.1.body.ProjectBody? && st.ProjectById(id).Some?
      && var before := st.ProjectById(id).value;
      && var after := r.1.body.project;
      && after.id == before.id && after.createdAt == before.createdAt
      && EncodeInsertProject(after.data) == EncodeInsertProject(before.data) + Restrict(o, ProjectKeys)
      && r.0.ProjectById(id) == Some(after)
  {
    var patch := ValidateProjectPatch(JObject(o)).value;
    ProjectPatchExact(o, patch);
    ProjectPatchSpread(st.ProjectById(id).value.data, patch);
    UpdateProjectThenFind(st, id, patch);
  }

  /** With distinct ids, a project just deleted is not found. */
  lemma DeleteThenGetProject(st: Store, id: string)
    requires st.Valid()
    ensures GetProject(DeleteProject(st, id).0, id).status == 404
  {
    DeleteProjectRemovesId(st, id);
  }

  /** A category outside the enumeration is refused with 400 and changes nothing. */
  lemma PostProjectBadCategory(st: Store, o: map<string, Value>, newId: string, now: int)
    requires "category" in o && o["category"].JString? && o["category"].s !in CategoryNames
    ensures PostProject(st, JObject(o), newId, now).0 == st
    ensures PostProject(st, JObject(o), newId, now).1.status == 400
  {
    ProjectCategoryOutsideEnum(o);
  }

  /** For example "blockchain". */
  lemma PostProjectBlockchain(st: Store, o: map<string, Value>, newId: string, now: int)
    ensures PostProject(st, JObject(o["category" := JString("blockchain")]), newId, now).0 == st
    ensures PostProject(st, JObject(o["category" := JString("blockchain")]), newId, now).1.status == 400
  {
    PostProjectBadCategory(st, o["category" := JString("blockchain")], newId, now);
  }

  /**
   * On the seeded repository, `?featured=true` lists exactly the two featured projects, and
   * no parameters lists all three newest first.
   */
  lemma SeededListings(ids: seq<string>, now: int)
    requires |ids| == 7
    ensures var st := Seed(ids, now);
      && GetProjects(st, None, Some("true")).body.projects == st.projects[..2]
      && GetProjects(st, None, None).body.projects == [st.projects[2], st.projects[1], st.projects[0]]
  {
    SeedListings(ids, now);
  }

  /**
   * A successful profile PATCH stores the body's known keys spread over the old profile
   * (or over nothing when there was none), under the old id or else the new one.
   */
  lemma PatchProfileIsSpread(st: Store, o: map<string, Value>, isEmail: string -> bool, newId: string, now: int)
    requires PatchProfile(st, JObject(o), isEmail, newId, now).1.status == 200
    ensures var r := PatchProfile(st, JObject(o), isEmail, newId, now);
      && r.1.body.ProfileBody? && r.0.profile == Some(r.1.body.profile)
      && var p := r.1.body.profile;
      && p.updatedAt == now
      && p.id == (if st.profile.Some? then st.profile.value.id else newId)
      && EncodeInsertProfile(p.data)
         == (if st.profile.Some? then EncodeInsertProfile(st.profile.value.data) else map[])
            + Restrict(o, ProfileKeys)
  {
    var d := ValidateInsertProfile(JObject(o), isEmail).value;
    ProfileExact(o, isEmail, d);
    if st.profile.Some? {
      ProfileMergeSpread(st.profile.value.data, d);
    } else {
      assert map[] + Restrict(o, ProfileKeys) == Restrict(o, ProfileKeys);
    }
  }

  /** A profile body lacking a required field is refused with 400 and changes nothing. */
  lemma PatchProfileMissingRequired(st: Store, o: map<string, Value>, isEmail: string -> bool, newId: string, now: int, k: string)
    requires k in ProfileRequired && k !in o
    ensures PatchProfile(st, JObject(o), isEmail, newId, now).0 == st
    ensures PatchProfile(st, JObject(o), isEmail, newId, now).1.status == 400
  {
    ProfileMissingRequired(o, isEmail, k);
  }

  /** In particular a body holding only a new name is refused: the shape is not partial. */
  lemma PatchProfileNameOnly(st: Store, isEmail: string -> bool, newId: string, now: int)
    ensures PatchProfile(st, JObject(map["name" := JString("New Name")]), isEmail, newId, now).0 == st
    ensures PatchProfile(st, JObject(map["name" := JString("New Name")]), isEmail, newId, now).1.status == 400
  {
    PatchProfileMissingRequired(st, map["name" := JString("New Name")], isEmail, newId, now, "title");
  }

  /** A skill category created by POST holds the body's known keys, with `color` defaulted. */
  lemma PostSkillStoresBody(st: Store, o: map<string, Value>, newId: string)
    requires PostSkill(st, JObject(o), newId).1.status == 201
    ensures var r := PostSkill(st, JObject(o), newId);
      && r.1.body.SkillBody?
      && r.1.body.skill.id == newId
      && EncodeInsertSkillCategory(r.1.body.skill.data) == SkillDefaults + Restrict(o, SkillKeys)
      && r.0.skillCategories == st.skillCategories + [r.1.body.skill]
  {
    SkillExact(o, ValidateInsertSkillCategory(JObject(o)).value);
  }

  /** A successful skill PATCH answers with the stored category spread with the body's known keys. */
  lemma PatchSkillIsSpread(st: Store, id: string, o: map<string, Value>)
    requires PatchSkill(st, id, JObject(o)).1.status == 200
    ensures var r := PatchSkill(st, id, JObject(o));
      && r.1.body.SkillBody? && id in SkillIds(st.skillCategories)
      && var before := st.skillCategories[FindIndex(SkillIds(st.skillCategories), id)];
      && r.1.body.skill.id == before.id
      && EncodeInsertSkillCategory(r.1.body.skill.data)
         == EncodeInsertSkillCategory(before.data) + Restrict(o, SkillKeys)
  {
    var patch := ValidateSkillCategoryPatch(JObject(o)).value;
    SkillPatchExact(o, patch);
    SkillPatchSpread(st.skillCategories[FindIndex(SkillIds(st.skillCategories), id)].data, patch);
  }

  /** With distinct ids, a skill category just deleted is gone, so deleting it again is 404. */
  lemma DeleteSkillTwice(st: Store, id: string)
    requires st.Valid()
    ensures DeleteSkill(DeleteSkill(st, id).0, id).1.status == 404
  {
    DeleteSkillCategoryRemovesId(st, id);
  }
}
