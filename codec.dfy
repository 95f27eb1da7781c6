/**
 * The JSON object each insert shape and partial shape stands for, and the laws that tie
 * validation to it: encoding then validating gives the value back, and a value that
 * validation produced encodes to exactly the known keys of the body, plus the defaults
 * for the keys the body left out.
 */
module Codec {
  import opened Wrappers
  import opened Json
  import opened Schema

  function OptString(v: Option<string>): Option<Value>
  {
    if v.Some? then Some(JString(v.value)) else None
  }

  function OptStrings(v: Option<seq<string>>): Option<Value>
  {
    if v.Some? then Some(JArray(EncodeStrings(v.value))) else None
  }

  function OptMetrics(v: Option<Metrics>): Option<Value>
  {
    if v.Some? then Some(JObject(v.value)) else None
  }

  /** An object with key `k` for every `k` in `keys` whose entry is present. */
  function Entries(keys: set<string>, entry: string -> Option<Value>): (m: map<string, Value>)
    ensures m.Keys <= keys
    ensures forall k :: k in keys ==> (k in m <==> entry(k).Some?)
    ensures forall k :: k in m ==> m[k] == entry(k).value
  {
    map k | k in keys && entry(k).Some? :: entry(k).value
  }

  // ---------------------------------------------------------------- projects

  function ProjectEntry(d: InsertProject, k: string): Option<Value>
  {
    if k == "title" then Some(JString(d.title))
    else if k == "description" then Some(JString(d.description))
    else if k == "category" then Some(JString(d.category.Name()))
    else if k == "technologies" then Some(JArray(EncodeStrings(d.technologies)))
    else if k == "imageUrl" then OptString(d.imageUrl)
    else if k == "githubUrl" then OptString(d.githubUrl)
    else if k == "liveUrl" then OptString(d.liveUrl)
    else if k == "powerBiUrl" then OptString(d.powerBiUrl)
    else if k == "featured" then Some(JBool(d.featured))
    else if k == "content" then Some(JString(d.content))
    else if k == "metrics" then OptMetrics(d.metrics)
    else None
  }

  /** The JSON object of an insert project: absent optional fields have no key. */
  function EncodeInsertProject(d: InsertProject): map<string, Value>
  {
    Entries(ProjectKeys, k => ProjectEntry(d, k))
  }

  lemma ProjectRoundTrip(d: InsertProject)
    ensures ValidateInsertProject(JObject(EncodeInsertProject(d))) == Ok(d)
  {
    var o := EncodeInsertProject(d);
    StringsRoundTrip(d.technologies);
    CategoryRoundTrip(d.category);
    assert o["title"] == JString(d.title);
    assert o["technologies"] == JArray(EncodeStrings(d.technologies));
    assert o["category"] == JString(d.category.Name());
  }

  /** What a validated project holds at key `k`: the body's value, or else the default. */
  lemma ProjectEntryOfValidated(o: map<string, Value>, d: InsertProject, k: string)
    requires ValidateInsertProject(JObject(o)) == Ok(d)
    requires k in ProjectKeys
    ensures ProjectEntry(d, k) == if k in o then Some(o[k]) else Lookup(ProjectDefaults, k)
  {
    if k == "technologies" {
      StringsExact(o[k].items);
    }
  }

  lemma ProjectExact(o: map<string, Value>, d: InsertProject)
    requires ValidateInsertProject(JObject(o)) == Ok(d)
    ensures EncodeInsertProject(d) == ProjectDefaults + Restrict(o, ProjectKeys)
  {
    var e := EncodeInsertProject(d);
    var m := ProjectDefaults + Restrict(o, ProjectKeys);
    forall k | k in ProjectKeys ensures (k in e <==> k in m) && (k in e ==> e[k] == m[k]) {
      ProjectEntryOfValidated(o, d, k);
    }
    assert e.Keys == m.Keys;
  }

  // ---------------------------------------------------------------- project patches

  function ProjectPatchEntry(p: ProjectPatch, k: string): Option<Value>
  {
    if k == "title" then OptString(p.title)
    else if k == "description" then OptString(p.description)
    else if k == "category" then (if p.category.Some? then Some(JString(p.category.value.Name())) else None)
    else if k == "technologies" then OptStrings(p.technologies)
    else if k == "imageUrl" then OptString(p.imageUrl)
    else if k == "githubUrl" then OptString(p.githubUrl)
    else if k == "liveUrl" then OptString(p.liveUrl)
    else if k == "powerBiUrl" then OptString(p.powerBiUrl)
    else if k == "featured" then (if p.featured.Some? then Some(JBool(p.featured.value)) else None)
    else if k == "content" then OptString(p.content)
    else if k == "metrics" then OptMetrics(p.metrics)
    else None
  }

  /** The JSON object of a patch: one key per supplied field. */
  function EncodeProjectPatch(p: ProjectPatch): map<string, Value>
  {
    Entries(ProjectKeys, k => ProjectPatchEntry(p, k))
  }

  /** An optional string field reads back the value its entry encodes. */
  lemma OptionalStringAt(o: map<string, Value>, k: string, v: Option<string>)
    requires Lookup(o, k) == OptString(v)
    ensures Optional(o, k, StringAt(o, k)) == Valid(v)
  {
  }

  lemma ProjectPatchRoundTrip(p: ProjectPatch)
    ensures ValidateProjectPatch(JObject(EncodeProjectPatch(p))) == Ok(p)
  {
    var o := EncodeProjectPatch(p);
    assert forall k :: k in ProjectKeys ==> Lookup(o, k) == ProjectPatchEntry(p, k);
    OptionalStringAt(o, "title", p.title);
    OptionalStringAt(o, "description", p.description);
    OptionalStringAt(o, "imageUrl", p.imageUrl);
    OptionalStringAt(o, "githubUrl", p.githubUrl);
    OptionalStringAt(o, "liveUrl", p.liveUrl);
    OptionalStringAt(o, "powerBiUrl", p.powerBiUrl);
    OptionalStringAt(o, "content", p.content);
    if p.technologies.Some? {
      StringsRoundTrip(p.technologies.value);
      assert o["technologies"] == JArray(EncodeStrings(p.technologies.value));
    }
    assert Optional(o, "technologies", StringListAt(o, "technologies")) == Valid(p.technologies);
    if p.category.Some? {
      CategoryRoundTrip(p.category.value);
      assert o["category"] == JString(p.category.value.Name());
    }
    assert Optional(o, "category", CategoryAt(o, "category")) == Valid(p.category);
    assert Optional(o, "featured", BoolAt(o, "featured")) == Valid(p.featured);
    assert Optional(o, "metrics", RecordAt(o, "metrics")) == Valid(p.metrics);
  }

  lemma ProjectPatchEntryOfValidated(o: map<string, Value>, p: ProjectPatch, k: string)
    requires ValidateProjectPatch(JObject(o)) == Ok(p)
    requires k in ProjectKeys
    ensures ProjectPatchEntry(p, k) == Lookup(o, k)
  {
    if k == "technologies" && k in o {
      StringsExact(o[k].items);
    }
  }

  lemma ProjectPatchExact(o: map<string, Value>, p: ProjectPatch)
    requires ValidateProjectPatch(JObject(o)) == Ok(p)
    ensures EncodeProjectPatch(p) == Restrict(o, ProjectKeys)
  {
    var e := EncodeProjectPatch(p);
    var m := Restrict(o, ProjectKeys);
    forall k | k in ProjectKeys ensures (k in e <==> k in m) && (k in e ==> e[k] == m[k]) {
      ProjectPatchEntryOfValidated(o, p, k);
    }
    assert e.Keys == m.Keys;
  }

  // ---------------------------------------------------------------- profile

  function ProfileEntry(d: InsertProfile, k: string): Option<Value>
  {
    if k == "name" then Some(JString(d.name))
    else if k == "title" then Some(JString(d.title))
    else if k == "bio" then Some(JString(d.bio))
    else if k == "email" then OptString(d.email)
    else if k == "linkedin" then OptString(d.linkedin)
    else if k == "github" then OptString(d.github)
    else if k == "profileImageUrl" then OptString(d.profileImageUrl)
    else if k == "resumeUrl" then OptString(d.resumeUrl)
    else if k == "skills" then Some(JArray(EncodeStrings(d.skills)))
    else None
  }

  /** The JSON object of an insert profile: absent optional fields have no key. */
  function EncodeInsertProfile(d: InsertProfile): map<string, Value>
  {
    Entries(ProfileKeys, k => ProfileEntry(d, k))
  }

  lemma ProfileRoundTrip(d: InsertProfile, isEmail: string -> bool)
    requires d.email.Some? ==> isEmail(d.email.value)
    ensures ValidateInsertProfile(JObject(EncodeInsertProfile(d)), isEmail) == Ok(d)
  {
    var o := EncodeInsertProfile(d);
    StringsRoundTrip(d.skills);
    assert o["skills"] == JArray(EncodeStrings(d.skills));
  }

  lemma ProfileEntryOfValidated(o: map<string, Value>, isEmail: string -> bool, d: InsertProfile, k: string)
    requires ValidateInsertProfile(JObject(o), isEmail) == Ok(d)
    requires k in ProfileKeys
    ensures ProfileEntry(d, k) == Lookup(o, k)
  {
    if k == "skills" {
      StringsExact(o[k].items);
    }
  }

  lemma ProfileExact(o: map<string, Value>, isEmail: string -> bool, d: InsertProfile)
    requires ValidateInsertProfile(JObject(o), isEmail) == Ok(d)
    ensures EncodeInsertProfile(d) == Restrict(o, ProfileKeys)
  {
    var e := EncodeInsertProfile(d);
    var m := Restrict(o, ProfileKeys);
    forall k | k in ProfileKeys ensures (k in e <==> k in m) && (k in e ==> e[k] == m[k]) {
      ProfileEntryOfValidated(o, isEmail, d, k);
    }
    assert e.Keys == m.Keys;
  }

  // ---------------------------------------------------------------- skill categories

  function SkillEntry(d: InsertSkillCategory, k: string): Option<Value>
  {
    if k == "name" then Some(JString(d.name))
    else if k == "skills" then Some(JArray(EncodeStrings(d.skills)))
    else if k == "color" then Some(JString(d.color))
    else None
  }

  function EncodeInsertSkillCategory(d: InsertSkillCategory): map<string, Value>
  {
    Entries(SkillKeys, k => SkillEntry(d, k))
  }

  lemma SkillRoundTrip(d: InsertSkillCategory)
    ensures ValidateInsertSkillCategory(JObject(EncodeInsertSkillCategory(d))) == Ok(d)
  {
    var o := EncodeInsertSkillCategory(d);
    StringsRoundTrip(d.skills);
    assert o["skills"] == JArray(EncodeStrings(d.skills));
  }

  lemma SkillExact(o: map<string, Value>, d: InsertSkillCategory)
    requires ValidateInsertSkillCategory(JObject(o)) == Ok(d)
    ensures EncodeInsertSkillCategory(d) == SkillDefaults + Restrict(o, SkillKeys)
  {
    var e := EncodeInsertSkillCategory(d);
    var m := SkillDefaults + Restrict(o, SkillKeys);
    StringsExact(o["skills"].items);
    forall k | k in SkillKeys ensures (k in e <==> k in m) && (k in e ==> e[k] == m[k]) {
    }
    assert e.Keys == m.Keys;
  }

  function SkillPatchEntry(p: SkillCategoryPatch, k: string): Option<Value>
  {
    if k == "name" then OptString(p.name)
    else if k == "skills" then OptStrings(p.skills)
    else if k == "color" then OptString(p.color)
    else None
  }

  function EncodeSkillCategoryPatch(p: SkillCategoryPatch): map<string, Value>
  {
    Entries(SkillKeys, k => SkillPatchEntry(p, k))
  }

  lemma SkillPatchRoundTrip(p: SkillCategoryPatch)
    ensures ValidateSkillCategoryPatch(JObject(EncodeSkillCategoryPatch(p))) == Ok(p)
  {
    var o := EncodeSkillCategoryPatch(p);
    if p.skills.Some? {
      StringsRoundTrip(p.skills.value);
      assert o["skills"] == JArray(EncodeStrings(p.skills.value));
    }
  }

  lemma SkillPatchExact(o: map<string, Value>, p: SkillCategoryPatch)
    requires ValidateSkillCategoryPatch(JObject(o)) == Ok(p)
    ensures EncodeSkillCategoryPatch(p) == Restrict(o, SkillKeys)
  {
    var e := EncodeSkillCategoryPatch(p);
    var m := Restrict(o, SkillKeys);
    if "skills" in o {
      StringsExact(o["skills"].items);
    }
    forall k | k in SkillKeys ensures (k in e <==> k in m) && (k in e ==> e[k] == m[k]) {
    }
    assert e.Keys == m.Keys;
  }
}
