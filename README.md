# Portfolio API: a verified model of its CRUD contract

This project models the server side of a personal portfolio site. It covers three parts:

- **Schema** (`shared/schema.ts`): the three record kinds (Project, Profile, SkillCategory),
  their "insert" shapes without server-assigned fields, and the partial insert shapes used
  by the PATCH routes.
- **Storage** (`server/storage.ts`): the in-memory repository `MemStorage`. It holds the
  projects in insertion order, an optional profile, and the skill categories in insertion
  order, and offers list, filter, find, create, patch, delete and profile create-or-merge.
- **Routes** (`server/routes.ts`): the HTTP handlers. Each maps a request to a storage call
  and a status code (200, 201, 204, 400, 404 or 500).

The modules are:

- `Wrappers` (wrappers.dfy): `Option` (a value or null) and `Result`.
- `Json` (json.dfy): JSON values, key restriction, and the string-list codec.
- `Schema` (schema.dfy): the record datatypes and one validation function per insert shape.
  Each function reads only the keys of its shape and reports one issue per bad field.
- `Codec` (codec.dfy): the JSON object each shape stands for, with round-trip and
  exactness laws. A value that validation produced encodes to exactly the body's known
  keys, plus the defaults `featured = false` and `color = "#3b82f6"`.
- `Storage` (storage.dfy): the repository state as a value (`Store`) and one member
  function per operation. It also holds the seed data and the class `MemStorage` with
  fields `projects`, `profile` and `skillCategories`. Each mutating method updates these in
  place and is tied by its `ensures` to the `Store` function of the same name.
- `Routes` (routes.dfy): one pure function per handler, from the state and the request to
  the next state and the response. End-to-end lemmas cover the main guarantees:
  - a PATCH response is the JSON spread `{...record, ...body}`;
  - a POST stores exactly the body's known keys;
  - a project that was just deleted answers 404;
  - a bad category is refused with 400 and nothing changes.

Ids and the clock are inputs. The source draws ids from `Math.random` (server/storage.ts:34-36)
and never checks them. So `Store.Valid()` ("ids are distinct in each collection") is an
invariant that each create keeps exactly when the id it is given is not already in use.
`DuplicateIdSurvivesDelete` shows what this invariant is needed for: without it, deleting
an id removes only the first of the records that share it. Times are integers (epoch
milliseconds), the values `getTime()` compares.

Behaviours of the code worth noting:

- Keys outside a shape are silently dropped, not rejected (the schema library's default);
  see `ProjectIgnoresUnknownKeys`.
- `PATCH /api/profile` validates against the full insert profile shape. A body with only a
  new name is therefore refused with 400 (`PatchProfileNameOnly`); it does not update that
  one field.
- Updating the profile spreads the validated data over the old profile. An optional field
  the body leaves out keeps its old value (`ProfileMergeSpread`).
- There is no GET-by-id route for skill categories.
- `GET /api/projects` lets a truthy `category` override `featured` entirely
  (`CategoryOverridesFeatured`).

## Model

| member | source | states |
|---|---|---|
| `Json.DecodeStrings` | shared/schema.ts:9 | a JSON array is a string list exactly when every element is a string; the lengths agree |
| `Json.StringsRoundTrip` | shared/schema.ts:9 | decoding an encoded string list gives the list back |
| `Json.StringsExact` | shared/schema.ts:31 | an array that decodes is exactly the encoding of what it decodes to |
| `Schema.ParseCategory` | shared/schema.ts:8 | a category string is accepted if and only if it is one of the five names, and it parses to the category of that name |
| `Schema.CategoryRoundTrip` | shared/schema.ts:8 | every category's name parses back to that category |
| `Schema.ValidateInsertProject` | shared/schema.ts:4-18 | success needs an object holding title, description, category, technologies and content; an absent `featured` becomes false; a failure carries at least one issue |
| `Schema.ValidateProjectPatch` | server/routes.ts:56 | the partial project shape accepts only objects and reports at least one issue on failure |
| `Schema.ValidateInsertProfile` | shared/schema.ts:21-33 | success needs an object holding name, title, bio and skills; an email that is present passes the email check |
| `Schema.ValidateInsertSkillCategory` | shared/schema.ts:36-41 | success needs name and skills; an absent color becomes "#3b82f6" |
| `Schema.ValidateSkillCategoryPatch` | server/routes.ts:136 | the partial skill shape accepts only objects and reports at least one issue on failure |
| `Schema.ProjectMissingRequired` | shared/schema.ts:5-17 | a project body missing a required key fails with an issue naming that key |
| `Schema.ProjectCategoryOutsideEnum` | shared/schema.ts:8 | a category string outside the enumeration fails both the full and the partial shape, naming the category |
| `Schema.ProjectReadsOnlyKnownKeys` | shared/schema.ts:44-47 | two bodies that agree on the insert shape's keys validate identically |
| `Schema.ProjectPatchReadsOnlyKnownKeys` | server/routes.ts:56 | the same for the partial shape |
| `Schema.ProjectIgnoresUnknownKeys` | shared/schema.ts:44-47 | adding a key outside the shape changes neither outcome nor value (full and partial) |
| `Schema.FeaturedAbsentIsFalse` | shared/schema.ts:14 | a project body without `featured` validates exactly as the same body with `featured: false`, so omitting it never makes the body fail |
| `Schema.ProjectInsertIsPatch` | server/routes.ts:56 | every body the insert shape accepts, the partial shape accepts |
| `Schema.ProfileMissingRequired` | shared/schema.ts:21-31 | a profile body missing name, title, bio or skills fails, naming the key |
| `Schema.ProfileBadEmail` | shared/schema.ts:26 | an email string the format check rejects fails, naming the email field |
| `Schema.ProfileReadsOnlyKnownKeys` | shared/schema.ts:49-52 | two bodies that agree on the profile shape's keys validate identically |
| `Schema.ProfileIgnoresUnknownKeys` | shared/schema.ts:49-52 | a key outside the profile shape changes nothing |
| `Schema.SkillMissingRequired` | shared/schema.ts:36-41 | a skill body missing name or skills fails, naming the key |
| `Schema.SkillIgnoresUnknownKeys` | shared/schema.ts:54-56 | a key outside the skill shape changes nothing (full and partial) |
| `Schema.ColorAbsentIsDefault` | shared/schema.ts:40 | a skill body without `color` validates exactly as the same body with color "#3b82f6", so omitting it never makes the body fail |
| `Schema.SkillInsertIsPatch` | server/routes.ts:136 | every body the skill insert shape accepts, the partial shape accepts |
| `Codec.ProjectRoundTrip` | shared/schema.ts:44-47 | validating the encoding of any insert project gives it back |
| `Codec.ProjectExact` | shared/schema.ts:4-18 | a validated project encodes to the body's known keys over the default `featured: false` |
| `Codec.ProjectPatchRoundTrip` | server/routes.ts:56 | validating the encoding of any patch gives it back |
| `Codec.ProjectPatchExact` | server/routes.ts:56 | a validated patch encodes to exactly the body's known keys |
| `Codec.ProfileRoundTrip` | shared/schema.ts:49-52 | validating the encoding of a profile whose email passes the check gives it back |
| `Codec.ProfileExact` | shared/schema.ts:21-33 | a validated profile encodes to exactly the body's known keys |
| `Codec.SkillRoundTrip` | shared/schema.ts:54-56 | validating the encoding of any skill category gives it back |
| `Codec.SkillExact` | shared/schema.ts:36-41 | a validated skill category encodes to the body's known keys over the default color |
| `Codec.SkillPatchRoundTrip` | server/routes.ts:136 | validating the encoding of any skill patch gives it back |
| `Codec.SkillPatchExact` | server/routes.ts:136 | a validated skill patch encodes to exactly the body's known keys |
| `Storage.FindIndex` | server/storage.ts:160 | -1 exactly when the id is absent, otherwise the first index holding it |
| `Storage.RemoveAt` | server/storage.ts:171 | removes one element; those before keep their index, those after move down by one |
| `Storage.Filter` | server/storage.ts:142 | every kept element satisfies the predicate, every satisfying element keeps its multiplicity, and the result is a subsequence |
| `Storage.InsertNewestFirst` | server/storage.ts:134 | inserting adds exactly that project to the multiset |
| `Storage.SortNewestFirst` | server/storage.ts:134 | the result is a permutation of the input with `createdAt` non-increasing |
| `Storage.SortIsStable` | server/storage.ts:134 | projects with equal `createdAt` keep their stored order |
| `Storage.PatchedProject` | server/storage.ts:163 | a patched project keeps its id and `createdAt` |
| `Storage.ProjectPatchSpread` | server/storage.ts:163 | the patched record's JSON is the old JSON with the patch's keys spread over it |
| `Storage.ProfileMergeSpread` | server/storage.ts:182-186 | the merged profile's JSON is the old JSON with the new data's keys spread over it |
| `Storage.PatchedSkillCategory` | server/storage.ts:215 | a patched skill category keeps its id |
| `Storage.SkillPatchSpread` | server/storage.ts:215 | the patched category's JSON is the old JSON with the patch's keys spread over it |
| `Storage.Store.AllProjects` | server/storage.ts:133-135 | a permutation of the stored projects, newest first |
| `Storage.Store.ProjectById` | server/storage.ts:137-139 | None exactly when no project has the id, otherwise the first project that has it |
| `Storage.Store.ProjectsByCategory` | server/storage.ts:141-143 | exactly the projects whose category is written as the argument, in stored order |
| `Storage.Store.FeaturedProjects` | server/storage.ts:145-147 | exactly the featured projects, in stored order |
| `Storage.Store.CreateProject` | server/storage.ts:149-157 | appends one project with the supplied fields, the new id and `createdAt = now`; nothing else changes |
| `Storage.Store.UpdateProject` | server/storage.ts:159-165 | absent id: None and no change; present: only the first match is patched, and the ids and length stay the same |
| `Storage.Store.DeleteProject` | server/storage.ts:167-173 | absent id: false and no change; present: only the first match removed, others in order, length down by one |
| `Storage.Store.UpdateProfile` | server/storage.ts:180-195 | merges over an existing profile keeping its id, or creates one with the new id; `updatedAt = now`; the stored profile is the one returned |
| `Storage.Store.CreateSkillCategory` | server/storage.ts:202-209 | appends one category with the supplied fields and the new id |
| `Storage.Store.UpdateSkillCategory` | server/storage.ts:211-217 | as UpdateProject, on the skill categories |
| `Storage.Store.DeleteSkillCategory` | server/storage.ts:219-225 | as DeleteProject, on the skill categories |
| `Storage.CreateProjectKeepsValid` | server/storage.ts:149-157 | with distinct ids and an unused new id, ids stay distinct and the new project is found by its id |
| `Storage.UpdateProjectThenFind` | server/storage.ts:159-165 | an update keeps ids distinct, and a lookup by the id returns what the update returned |
| `Storage.DeleteProjectRemovesId` | server/storage.ts:167-173 | with distinct ids, after a delete the id is no longer found |
| `Storage.DuplicateIdSurvivesDelete` | server/storage.ts:34-36 | without distinct ids, deleting leaves the second record with that id in place |
| `Storage.CreateSkillCategoryKeepsValid` | server/storage.ts:202-209 | with an unused new id, skill ids stay distinct and the new category is found at the end |
| `Storage.DeleteSkillCategoryRemovesId` | server/storage.ts:219-225 | with distinct ids, a deleted skill category's id is gone |
| `Storage.Seed` | server/storage.ts:38-130 | the seed holds three projects, three skill categories and a profile, with ids in draw order |
| `Storage.SeedValid` | server/storage.ts:38-130 | seven distinct generated ids give a valid seed |
| `Storage.SeedListings` | server/storage.ts:79-129 | of the seeded projects the first two are featured, and the full listing is March, February, January |
| `Storage.MemStorage.constructor` | server/storage.ts:30-32 | the object starts in the seed state |
| `Storage.MemStorage.GetAllProjects` | server/storage.ts:133-135 | returns a newest-first permutation and leaves the stored order unchanged |
| `Storage.MemStorage.GetProjectById` | server/storage.ts:137-139 | returns the first project with the id, or None |
| `Storage.MemStorage.GetProjectsByCategory` | server/storage.ts:141-143 | returns `Store.ProjectsByCategory` of the current state |
| `Storage.MemStorage.GetFeaturedProjects` | server/storage.ts:145-147 | returns `Store.FeaturedProjects` of the current state |
| `Storage.MemStorage.CreateProject` | server/storage.ts:149-157 | pushes the new project; keeps ids distinct when the id is unused |
| `Storage.MemStorage.UpdateProject` | server/storage.ts:159-165 | assigns the patched project at the first matching index, as `Store.UpdateProject` |
| `Storage.MemStorage.DeleteProject` | server/storage.ts:167-173 | splices out the first match, as `Store.DeleteProject` |
| `Storage.MemStorage.GetProfile` | server/storage.ts:176-178 | returns the stored profile or None |
| `Storage.MemStorage.UpdateProfile` | server/storage.ts:180-195 | reassigns the profile as `Store.UpdateProfile`; the profile is then the one returned |
| `Storage.MemStorage.GetAllSkillCategories` | server/storage.ts:198-200 | returns the skill categories as stored |
| `Storage.MemStorage.CreateSkillCategory` | server/storage.ts:202-209 | pushes the new category |
| `Storage.MemStorage.UpdateSkillCategory` | server/storage.ts:211-217 | assigns at the first matching index, as `Store.UpdateSkillCategory` |
| `Storage.MemStorage.DeleteSkillCategory` | server/storage.ts:219-225 | splices out the first match, as `Store.DeleteSkillCategory` |
| `Routes.CatchWrite` | server/routes.ts:45-50 | any `Error` gives 400 with its message; only a non-`Error` throw gives 500 |
| `Routes.ChooseProjectQuery` | server/routes.ts:13-20 | a truthy category selects the category filter; otherwise exactly "true" selects featured; otherwise all |
| `Routes.CategoryOverridesFeatured` | server/routes.ts:14-17 | with a truthy category the `featured` parameter plays no part |
| `Routes.GetProjects` | server/routes.ts:9-26 | 200 with the list the precedence rule selects |
| `Routes.GetProject` | server/routes.ts:28-38 | 404 with an error body exactly when no project has the id, otherwise 200 with it |
| `Routes.PostProject` | server/routes.ts:40-52 | invalid body: 400 and the state untouched; valid: 201 with the created project |
| `Routes.PatchProject` | server/routes.ts:54-69 | invalid body: 400 and no change; absent id: 404 and no change; else 200 with the updated project |
| `Routes.DeleteProject` | server/routes.ts:71-81 | absent id: 404 and no change; present: 204 with no body |
| `Routes.GetProfile` | server/routes.ts:84-94 | 404 when there is no profile, otherwise 200 with it |
| `Routes.PatchProfile` | server/routes.ts:96-108 | invalid body: 400 and no change; valid: 200 and the stored profile is the one returned |
| `Routes.GetSkills` | server/routes.ts:111-118 | 200 with the stored skill categories |
| `Routes.PostSkill` | server/routes.ts:120-132 | invalid body: 400 and no change; valid: 201 with the created category |
| `Routes.PatchSkill` | server/routes.ts:134-149 | 400, 404 or 200 as for projects |
| `Routes.DeleteSkill` | server/routes.ts:151-161 | absent id: 404 and no change; present: 204 |
| `Routes.PostProjectStoresBody` | server/routes.ts:42-44 | a 201 project holds the body's known keys over the default, the new id and `now`, appended at the end |
| `Routes.PostThenGetProject` | server/routes.ts:40-52 | with distinct ids and an unused id, GET of the new id answers 200 with what POST answered |
| `Routes.PatchProjectIsSpread` | server/routes.ts:56-61 | a 200 PATCH answers `{...stored, ...known keys of body}` with id and `createdAt` kept, and that is what a lookup now finds |
| `Routes.DeleteThenGetProject` | server/routes.ts:71-81 | with distinct ids, GET of a just-deleted id answers 404 |
| `Routes.PostProjectBadCategory` | server/routes.ts:42-47 | a category outside the enumeration gives 400 and no change |
| `Routes.PostProjectBlockchain` | server/routes.ts:42-47 | the category "blockchain" gives 400 and no change |
| `Routes.SeededListings` | server/routes.ts:11-22 | on the seed, `?featured=true` lists exactly the two featured projects; no parameters lists all three newest first |
| `Routes.PatchProfileIsSpread` | server/routes.ts:98-100 | a 200 profile PATCH stores the body's known keys spread over the old profile (or nothing), under the old id or the new one, with `updatedAt = now` |
| `Routes.PatchProfileMissingRequired` | server/routes.ts:98-103 | a profile body missing a required key gives 400 and no change |
| `Routes.PatchProfileNameOnly` | server/routes.ts:98-103 | a body with only a name gives 400 and no change |
| `Routes.PostSkillStoresBody` | server/routes.ts:122-124 | a 201 skill category holds the body's known keys over the default color and the new id, appended at the end |
| `Routes.PatchSkillIsSpread` | server/routes.ts:136-141 | a 200 skill PATCH answers the stored category spread with the body's known keys, id kept |
| `Routes.DeleteSkillTwice` | server/routes.ts:151-161 | with distinct ids, deleting the same skill category twice answers 404 the second time |

## Left out

- Id generation (`Math.random().toString(36).substr(2, 9)`): ids are parameters of the create operations. Uniqueness is an invariant that holds only when the supplied id is unused. Non-emptiness of ids is not modelled.
- The clock (`new Date()`): the current time is a parameter `now`.
- The email-format regular expression: it is the parameter `isEmail` of the profile validation.
- The text of a validation error message: the schema library serialises its issues to JSON. The model carries the issue list itself, one issue per offending field. It does not report one issue per bad element of an array.
- JSON numbers are integers in the model. Nothing in the server computes on them.
- Query parameters that are repeated or nested (an array or object instead of a string) are not modelled. `category` and `featured` are each an optional string.
- The `catch` blocks of the GET and DELETE handlers (500) are not modelled: the in-memory storage never throws. For the same reason the non-`Error` branch of `Routes.CatchWrite` is reachable only from code outside the model.
- Express routing and request/response objects, JSON parsing of the request body, and serialisation of responses.
- `async`/`await`: every storage operation runs to completion before the next starts, so the model is sequential.
- The client pages, navigation, client data fetching and caching, the standalone development servers (run.js, dev-server.js), process start-up and build configuration are not part of this model.
- The full record schemas `projectSchema`, `profileSchema` and `skillCategorySchema` are never used to parse anything. They are the record datatypes `Project`, `Profile` and `SkillCategory`, built from the insert shape plus the server fields.
