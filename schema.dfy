/**
 * The record shapes of the portfolio API and the validation of request bodies against
 * their "insert" shapes (shared/schema.ts).
 *
 * Every record is its insert shape plus the fields the server assigns, so a client can
 * never supply an id or a timestamp. Validation reads only the keys of the shape: any other
 * key of the body is dropped, as the schema library does by default. A failed validation
 * reports one issue per offending field, in the order the shape lists its fields.
 */
module Schema {
  import opened Wrappers
  import opened Json

  // ---------------------------------------------------------------- categories

  /** The fixed set of project categories. */
  datatype Category = DataScience | PowerBi | WebDevelopment | Analytics | MachineLearning
  {
    /** The category as it is written on the wire. */
    function Name(): string
    {
      match this
      case DataScience => "data-science"
      case PowerBi => "power-bi"
      case WebDevelopment => "web-development"
      case Analytics => "analytics"
      case MachineLearning => "machine-learning"
    }
  }

  const CategoryNames: set<string> :=
    {"data-science", "power-bi", "web-development", "analytics", "machine-learning"}

  /** The category a string names; None for every string outside the enumeration. */
  function ParseCategory(s: string): (r: Option<Category>)
    ensures r.Some? <==> s in CategoryNames
    ensures r.Some? ==> r.value.Name() == s
  {
    if s == "data-science" then Some(DataScience)
    else if s == "power-bi" then Some(PowerBi)
    else if s == "web-development" then Some(WebDevelopment)
    else if s == "analytics" then Some(Analytics)
    else if s == "machine-learning" then Some(MachineLearning)
    else None
  }

  /** Every category's name parses back to that category. */
  lemma CategoryRoundTrip(c: Category)
    ensures ParseCategory(c.Name()) == Some(c)
  {
  }

  // ---------------------------------------------------------------- shapes

  /** Free-form project metrics: a string-keyed object whose values are not checked. */
  type Metrics = map<string, Value>

  /** What a client supplies to create a project. */
  datatype InsertProject = InsertProject(
    title: string,
    description: string,
    category: Category,
    technologies: seq<string>,
    imageUrl: Option<string>,
    githubUrl: Option<string>,
    liveUrl: Option<string>,
    powerBiUrl: Option<string>,
    featured: bool,
    content: string,
    metrics: Option<Metrics>)

  /** A stored project: the insert shape plus a server-assigned id and creation time (ms). */
  datatype Project = Project(id: string, data: InsertProject, createdAt: int)

  /** The partial insert shape: each field of InsertProject, present or not. */
  datatype ProjectPatch = ProjectPatch(
    title: Option<string>,
    description: Option<string>,
    category: Option<Category>,
    technologies: Option<seq<string>>,
    imageUrl: Option<string>,
    githubUrl: Option<string>,
    liveUrl: Option<string>,
    powerBiUrl: Option<string>,
    featured: Option<bool>,
    content: Option<string>,
    metrics: Option<Metrics>)

  /** What a client supplies to create or replace the profile. */
  datatype InsertProfile = InsertProfile(
    name: string,
    title: string,
    bio: string,
    email: Option<string>,
    linkedin: Option<string>,
    github: Option<string>,
    profileImageUrl: Option<string>,
    resumeUrl: Option<string>,
    skills: seq<string>)

  /** The stored profile: the insert shape plus a server-assigned id and update time (ms). */
  datatype Profile = Profile(id: string, data: InsertProfile, updatedAt: int)

  /** What a client supplies to create a skill category. */
  datatype InsertSkillCategory = InsertSkillCategory(name: string, skills: seq<string>, color: string)

  /** A stored skill category: the insert shape plus a server-assigned id. */
  datatype SkillCategory = SkillCategory(id: string, data: InsertSkillCategory)

  /** The partial insert shape of a skill category. */
  datatype SkillCategoryPatch = SkillCategoryPatch(
    name: Option<string>, skills: Option<seq<string>>, color: Option<string>)

  const DefaultColor: string := "#3b82f6"

  const ProjectKeys: set<string> :=
    {"title", "description", "category", "technologies", "imageUrl", "githubUrl",
     "liveUrl", "powerBiUrl", "featured", "content", "metrics"}
  const ProjectRequired: set<string> :=
    {"title", "description", "category", "technologies", "content"}
  const ProfileKeys: set<string> :=
    {"name", "title", "bio", "email", "linkedin", "github", "profileImageUrl", "resumeUrl", "skills"}
  const ProfileRequired: set<string> := {"name", "title", "bio", "skills"}
  const SkillKeys: set<string> := {"name", "skills", "color"}
  const SkillRequired: set<string> := {"name", "skills"}

  /** The keys an absent-valued default fills in. */
  const ProjectDefaults: map<string, Value> := map["featured" := JBool(false)]
  const SkillDefaults: map<string, Value> := map["color" := JString(DefaultColor)]

  // ---------------------------------------------------------------- issues and fields

  datatype IssueCode =
    | InvalidType       // missing where required, or of the wrong JSON type
    | InvalidEnumValue  // a string outside the category enumeration
    | InvalidEmail      // a string the email check rejects

  /** One validation problem, at the named field ("" for the body itself). */
  datatype Issue = Issue(path: string, code: IssueCode)

  /** The outcome of checking one field. */
  datatype Field<T> = Valid(value: T) | Invalid(issue: Issue)
  {
    function Issues(): seq<Issue>
    {
      if Valid? then [] else [issue]
    }
  }

  function StringAt(o: map<string, Value>, k: string): Field<string>
  {
    if k in o && o[k].JString? then Valid(o[k].s) else Invalid(Issue(k, InvalidType))
  }

  function BoolAt(o: map<string, Value>, k: string): Field<bool>
  {
    if k in o && o[k].JBool? then Valid(o[k].b) else Invalid(Issue(k, InvalidType))
  }

  function StringListAt(o: map<string, Value>, k: string): Field<seq<string>>
  {
    if k in o && o[k].JArray? && DecodeStrings(o[k].items).Some? then
      Valid(DecodeStrings(o[k].items).value)
    else
      Invalid(Issue(k, InvalidType))
  }

  function CategoryAt(o: map<string, Value>, k: string): Field<Category>
  {
    if !(k in o && o[k].JString?) then Invalid(Issue(k, InvalidType))
    else if ParseCategory(o[k].s).None? then Invalid(Issue(k, InvalidEnumValue))
    else Valid(ParseCategory(o[k].s).value)
  }

  /** A record of arbitrary values: any JSON object (not an array, not null). */
  function RecordAt(o: map<string, Value>, k: string): Field<Metrics>
  {
    if k in o && o[k].JObject? then Valid(o[k].fields) else Invalid(Issue(k, InvalidType))
  }

  /** A string that must also pass the email-format check `isEmail`. */
  function EmailAt(o: map<string, Value>, k: string, isEmail: string -> bool): Field<string>
  {
    if !(k in o && o[k].JString?) then Invalid(Issue(k, InvalidType))
    else if !isEmail(o[k].s) then Invalid(Issue(k, InvalidEmail))
    else Valid(o[k].s)
  }

  /** An optional field: absent is fine, present must pass `f`. */
  function Optional<T>(o: map<string, Value>, k: string, f: Field<T>): Field<Option<T>>
  {
    if k !in o then Valid(None)
    else match f
      case Valid(v) => Valid(Some(v))
      case Invalid(e) => Invalid(e)
  }

  /** A field with a default: absent gives `d`, present must pass `f`. */
  function Defaulted<T>(o: map<string, Value>, k: string, f: Field<T>, d: T): Field<T>
  {
    if k !in o then Valid(d) else f
  }

  // ---------------------------------------------------------------- projects

  /** Parses a body against the project insert shape. */
  function ValidateInsertProject(body: Value): (r: Result<InsertProject, seq<Issue>>)
    ensures r.Ok? ==> body.JObject? && ProjectRequired <= body.fields.Keys
    ensures r.Ok? && "featured" !in body.fields ==> !r.value.featured
    ensures r.Err? ==> r.error != []
  {
    if !body.JObject? then Err([Issue("", InvalidType)])
    else
      var o := body.fields;
      var title := StringAt(o, "title");
      var description := StringAt(o, "description");
      var category := CategoryAt(o, "category");
      var technologies := StringListAt(o, "technologies");
      var imageUrl := Optional(o, "imageUrl", StringAt(o, "imageUrl"));
      var githubUrl := Optional(o, "githubUrl", StringAt(o, "githubUrl"));
      var liveUrl := Optional(o, "liveUrl", StringAt(o, "liveUrl"));
      var powerBiUrl := Optional(o, "powerBiUrl", StringAt(o, "powerBiUrl"));
      var featured := Defaulted(o, "featured", BoolAt(o, "featured"), false);
      var content := StringAt(o, "content");
      var metrics := Optional(o, "metrics", RecordAt(o, "metrics"));
      var issues :=
        title.Issues() + description.Issues() + category.Issues() + technologies.Issues()
        + imageUrl.Issues() + githubUrl.Issues() + liveUrl.Issues() + powerBiUrl.Issues()
        + featured.Issues() + content.Issues() + metrics.Issues();
      if issues != [] then Err(issues)
      else Ok(InsertProject(title.value, description.value, category.value, technologies.value,
                            imageUrl.value, githubUrl.value, liveUrl.value, powerBiUrl.value,
                            featured.value, content.value, metrics.value))
  }

  /** Parses a body against the partial project insert shape: no field is required. */
  function ValidateProjectPatch(body: Value): (r: Result<ProjectPatch, seq<Issue>>)
    ensures r.Ok? ==> body.JObject?
    ensures r.Err? ==> r.error != []
  {
    if !body.JObject? then Err([Issue("", InvalidType)])
    else
      var o := body.fields;
      var title := Optional(o, "title", StringAt(o, "title"));
      var description := Optional(o, "description", StringAt(o, "description"));
      var category := Optional(o, "category", CategoryAt(o, "category"));
      var technologies := Optional(o, "technologies", StringListAt(o, "technologies"));
      var imageUrl := Optional(o, "imageUrl", StringAt(o, "imageUrl"));
      var githubUrl := Optional(o, "githubUrl", StringAt(o, "githubUrl"));
      var liveUrl := Optional(o, "liveUrl", StringAt(o, "liveUrl"));
      var powerBiUrl := Optional(o, "powerBiUrl", StringAt(o, "powerBiUrl"));
      var featured := Optional(o, "featured", BoolAt(o, "featured"));
      var content := Optional(o, "content", StringAt(o, "content"));
      var metrics := Optional(o, "metrics", RecordAt(o, "metrics"));
      var issues :=
        title.Issues() + description.Issues() + category.Issues() + technologies.Issues()
        + imageUrl.Issues() + githubUrl.Issues() + liveUrl.Issues() + powerBiUrl.Issues()
        + featured.Issues() + content.Issues() + metrics.Issues();
      if issues != [] then Err(issues)
      else Ok(ProjectPatch(title.value, description.value, category.value, technologies.value,
                           imageUrl.value, githubUrl.value, liveUrl.value, powerBiUrl.value,
                           featured.value, content.value, metrics.value))
  }

  // ---------------------------------------------------------------- profile

  /** Parses a body against the profile insert shape; `isEmail` is the email-format check. */
  function ValidateInsertProfile(body: Value, isEmail: string -> bool): (r: Result<InsertProfile, seq<Issue>>)
    ensures r.Ok? ==> body.JObject? && ProfileRequired <= body.fields.Keys
    ensures r.Ok? && r.value.email.Some? ==> isEmail(r.value.email.value)
    ensures r.Err? ==> r.error != []
  {
    if !body.JObject? then Err([Issue("", InvalidType)])
    else
      var o := body.fields;
      var name := StringAt(o, "name");
      var title := StringAt(o, "title");
      var bio := StringAt(o, "bio");
      var email := Optional(o, "email", EmailAt(o, "email", isEmail));
      var linkedin := Optional(o, "linkedin", StringAt(o, "linkedin"));
      var github := Optional(o, "github", StringAt(o, "github"));
      var profileImageUrl := Optional(o, "profileImageUrl", StringAt(o, "profileImageUrl"));
      var resumeUrl := Optional(o, "resumeUrl", StringAt(o, "resumeUrl"));
      var skills := StringListAt(o, "skills");
      var issues :=
        name.Issues() + title.Issues() + bio.Issues() + email.Issues() + linkedin.Issues()
        + github.Issues() + profileImageUrl.Issues() + resumeUrl.Issues() + skills.Issues();
      if issues != [] then Err(issues)
      else Ok(InsertProfile(name.value, title.value, bio.value, email.value, linkedin.value,
                            github.value, profileImageUrl.value, resumeUrl.value, skills.value))
  }

  // ---------------------------------------------------------------- skill categories

  /** Parses a body against the skill-category insert shape. */
  function ValidateInsertSkillCategory(body: Value): (r: Result<InsertSkillCategory, seq<Issue>>)
    ensures r.Ok? ==> body.JObject? && SkillRequired <= body.fields.Keys
    ensures r.Ok? && "color" !in body.fields ==> r.value.color == DefaultColor
    ensures r.Err? ==> r.error != []
  {
    if !body.JObject? then Err([Issue("", InvalidType)])
    else
      var o := body.fields;
      var name := StringAt(o, "name");
      var skills := StringListAt(o, "skills");
      var color := Defaulted(o, "color", StringAt(o, "color"), DefaultColor);
      var issues := name.Issues() + skills.Issues() + color.Issues();
      if issues != [] then Err(issues)
      else Ok(InsertSkillCategory(name.value, skills.value, color.value))
  }

  /** Parses a body against the partial skill-category insert shape. */
  function ValidateSkillCategoryPatch(body: Value): (r: Result<SkillCategoryPatch, seq<Issue>>)
    ensures r.Ok? ==> body.JObject?
    ensures r.Err? ==> r.error != []
  {
    if !body.JObject? then Err([Issue("", InvalidType)])
    else
      var o := body.fields;
      var name := Optional(o, "name", StringAt(o, "name"));
      var skills := Optional(o, "skills", StringListAt(o, "skills"));
      var color := Optional(o, "color", StringAt(o, "color"));
      var issues := name.Issues() + skills.Issues() + color.Issues();
      if issues != [] then Err(issues)
      else Ok(SkillCategoryPatch(name.value, skills.value, color.value))
  }

  // ---------------------------------------------------------------- properties

  /** A project body without one of its required fields fails, naming that field. */
  lemma ProjectMissingRequired(o: map<string, Value>, k: string)
    requires k in ProjectRequired && k !in o
    ensures ValidateInsertProject(JObject(o)).Err?
    ensures Issue(k, InvalidType) in ValidateInsertProject(JObject(o)).error
  {
  }

  /** A category string outside the enumeration fails, naming the category field. */
  lemma ProjectCategoryOutsideEnum(o: map<string, Value>)
    requires "category" in o && o["category"].JString? && o["category"].s !in CategoryNames
    ensures ValidateInsertProject(JObject(o)).Err?
    ensures Issue("category", InvalidEnumValue) in ValidateInsertProject(JObject(o)).error
    ensures ValidateProjectPatch(JObject(o)).Err?
    ensures Issue("category", InvalidEnumValue) in ValidateProjectPatch(JObject(o)).error
  {
  }

  /** Two objects that agree on every key of `keys`. */
  ghost predicate AgreeOn(o: map<string, Value>, o': map<string, Value>, keys: set<string>)
  {
    forall k :: k in keys ==> Lookup(o, k) == Lookup(o', k)
  }

  /** The readers of the project fields see the same thing in two objects that agree on the shape. */
  lemma ProjectFieldsAgree(o: map<string, Value>, o': map<string, Value>)
    requires AgreeOn(o, o', ProjectKeys)
    ensures forall k :: k in ProjectKeys ==> (k in o <==> k in o')
    ensures forall k :: k in ProjectKeys ==> StringAt(o, k) == StringAt(o', k)
    ensures BoolAt(o, "featured") == BoolAt(o', "featured")
    ensures RecordAt(o, "metrics") == RecordAt(o', "metrics")
    ensures StringListAt(o, "technologies") == StringListAt(o', "technologies")
    ensures CategoryAt(o, "category") == CategoryAt(o', "category")
  {
    assert forall k :: k in ProjectKeys ==> (k in o <==> Lookup(o, k).Some?);
  }

  /** Project validation reads nothing but the keys of the shape. */
  lemma ProjectReadsOnlyKnownKeys(o: map<string, Value>, o': map<string, Value>)
    requires AgreeOn(o, o', ProjectKeys)
    ensures ValidateInsertProject(JObject(o)) == ValidateInsertProject(JObject(o'))
  {
    ProjectFieldsAgree(o, o');
  }

  /** The partial project shape reads nothing but the keys of the shape. */
  lemma ProjectPatchReadsOnlyKnownKeys(o: map<string, Value>, o': map<string, Value>)
    requires AgreeOn(o, o', ProjectKeys)
    ensures ValidateProjectPatch(JObject(o)) == ValidateProjectPatch(JObject(o'))
  {
    ProjectFieldsAgree(o, o');
  }

  /** Keys outside the shape are dropped: they change neither outcome nor value. */
  lemma ProjectIgnoresUnknownKeys(o: map<string, Value>, k: string, v: Value)
    requires k !in ProjectKeys
    ensures ValidateInsertProject(JObject(o[k := v])) == ValidateInsertProject(JObject(o))
    ensures ValidateProjectPatch(JObject(o[k := v])) == ValidateProjectPatch(JObject(o))
  {
    ProjectReadsOnlyKnownKeys(o[k := v], o);
    ProjectPatchReadsOnlyKnownKeys(o[k := v], o);
  }

  /**
   * `featured` defaults to false: a body without it is treated exactly as the same body with
   * `featured: false`, so leaving the key out never makes a body fail.
   */
  lemma FeaturedAbsentIsFalse(o: map<string, Value>)
    requires "featured" !in o
    ensures ValidateInsertProject(JObject(o)) == ValidateInsertProject(JObject(o["featured" := JBool(false)]))
  {
    var o' := o["featured" := JBool(false)];
    assert forall k :: k != "featured" ==> StringAt(o, k) == StringAt(o', k);
    assert forall k :: k != "featured" ==> (k in o <==> k in o');
    assert CategoryAt(o, "category") == CategoryAt(o', "category");
    assert StringListAt(o, "technologies") == StringListAt(o', "technologies");
    assert RecordAt(o, "metrics") == RecordAt(o', "metrics");
    assert Defaulted(o, "featured", BoolAt(o, "featured"), false) == Valid(false);
    assert Defaulted(o', "featured", BoolAt(o', "featured"), false) == Valid(false);
  }

  /** Every body the full insert shape accepts, the partial shape accepts too. */
  lemma ProjectInsertIsPatch(body: Value)
    requires ValidateInsertProject(body).Ok?
    ensures ValidateProjectPatch(body).Ok?
  {
  }

  /** A profile body without one of its required fields fails, naming that field. */
  lemma ProfileMissingRequired(o: map<string, Value>, isEmail: string -> bool, k: string)
    requires k in ProfileRequired && k !in o
    ensures ValidateInsertProfile(JObject(o), isEmail).Err?
    ensures Issue(k, InvalidType) in ValidateInsertProfile(JObject(o), isEmail).error
  {
  }

  /** An email string that the format check rejects fails, naming the email field. */
  lemma ProfileBadEmail(o: map<string, Value>, isEmail: string -> bool)
    requires "email" in o && o["email"].JString? && !isEmail(o["email"].s)
    ensures ValidateInsertProfile(JObject(o), isEmail).Err?
    ensures Issue("email", InvalidEmail) in ValidateInsertProfile(JObject(o), isEmail).error
  {
  }

  /** Profile validation reads nothing but the keys of the shape. */
  lemma ProfileReadsOnlyKnownKeys(o: map<string, Value>, o': map<string, Value>, isEmail: string -> bool)
    requires AgreeOn(o, o', ProfileKeys)
    ensures ValidateInsertProfile(JObject(o), isEmail) == ValidateInsertProfile(JObject(o'), isEmail)
  {
    assert forall k :: k in ProfileKeys ==> StringAt(o, k) == StringAt(o', k);
    assert StringListAt(o, "skills") == StringListAt(o', "skills");
    assert EmailAt(o, "email", isEmail) == EmailAt(o', "email", isEmail);
    assert forall k :: k in ProfileKeys ==> (k in o <==> k in o');
  }

  lemma ProfileIgnoresUnknownKeys(o: map<string, Value>, isEmail: string -> bool, k: string, v: Value)
    requires k !in ProfileKeys
    ensures ValidateInsertProfile(JObject(o[k := v]), isEmail) == ValidateInsertProfile(JObject(o), isEmail)
  {
    ProfileReadsOnlyKnownKeys(o[k := v], o, isEmail);
  }

  lemma SkillMissingRequired(o: map<string, Value>, k: string)
    requires k in SkillRequired && k !in o
    ensures ValidateInsertSkillCategory(JObject(o)).Err?
    ensures Issue(k, InvalidType) in ValidateInsertSkillCategory(JObject(o)).error
  {
  }

  lemma SkillIgnoresUnknownKeys(o: map<string, Value>, k: string, v: Value)
    requires k !in SkillKeys
    ensures ValidateInsertSkillCategory(JObject(o[k := v])) == ValidateInsertSkillCategory(JObject(o))
    ensures ValidateSkillCategoryPatch(JObject(o[k := v])) == ValidateSkillCategoryPatch(JObject(o))
  {
  }

  /**
   * `color` defaults to "#3b82f6": a body without it is treated exactly as the same body with
   * that color, so leaving the key out never makes a body fail.
   */
  lemma ColorAbsentIsDefault(o: map<string, Value>)
    requires "color" !in o
    ensures ValidateInsertSkillCategory(JObject(o))
         == ValidateInsertSkillCategory(JObject(o["color" := JString(DefaultColor)]))
  {
    var o' := o["color" := JString(DefaultColor)];
    assert StringAt(o, "name") == StringAt(o', "name");
    assert StringListAt(o, "skills") == StringListAt(o', "skills");
    assert Defaulted(o, "color", StringAt(o, "color"), DefaultColor) == Valid(DefaultColor);
    assert Defaulted(o', "color", StringAt(o', "color"), DefaultColor) == Valid(DefaultColor);
  }

  lemma SkillInsertIsPatch(body: Value)
    requires ValidateInsertSkillCategory(body).Ok?
    ensures ValidateSkillCategoryPatch(body).Ok?
  {
  }
}
