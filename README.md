# member-port: a verified model of the request core

member-port is the membership portal of Piratpartiet. It is a Tornado web
application backed by PostgreSQL, and the Ory Kratos identity service
authenticates its users. This project models four parts of it in Dafny:

- **The base request handler** (`app/web/handlers/base.py`). It covers:
  - the session cookie forwarded to Kratos (`session_hash`);
  - UUID normalisation (`check_uuid`);
  - the uniform response contract of `respond` and `write_error`: a JSON
    envelope `{success, reason, data}`, no body for 204, or an error page
    `error/<code>.html`;
  - building the current `Session` and `User` from Kratos's `whoami` and
    `logout` answers, enriched with the local user-info row (`get_current_user`);
  - installing that session once per request (`prepare`, `is_authenticated`).
- **The organizations data-access object** (`app/database/dao/organizations.py`),
  over in-memory tables: the `organizations` table, which keys rows by id and
  by name, the single `settings.default_organization` cell, and the membership
  rows. Create, update and the three-step delete are functions from the old
  tables to the result and the new tables. The class `OrganizationsDao` holds
  the tables and performs the same steps in place. The listing query is the
  matching rows, sorted, then turned into records by a loop.
- **The add-organization page script**
  (`assets/ts/entrypoints/add-organization.ts`). It covers the parent chosen
  for each area and municipality of the recruitment-area tree (`getParentID`
  and the page-load loop) and the early return of the save button.
- **The geography admin page** (`app/web/handlers/admin/geography.py`). Areas
  are sorted stably by depth. A failed permission check still falls through to
  the render.

Shared pieces:

- `Strings.dfy`: dot-splitting and joining with round trips, substring search,
  code-point order, and Python's `str(int)` with its inverse.
- `Sorting.dfy`: a stable sort by key, proved to be a permutation, ordered and
  stable. It stands for Python's `sorted(..., key=...)` and for SQL `ORDER BY`.
- `Records.dfy`: the `app.models` records.

Two quirks of the code are kept as written:

- **Order column.** The listing offers sorting by `name` or `created`. The test at
  `app/database/dao/organizations.py:86` is `!= "name" or != "created"`, which
  is true for every string. The model therefore always orders by name
  (`GetOrganizationsQuery`, `EmptySearchListsAllByName`).
- **Lookup by name.** `get_organization_by_name` assigns `name` three times.
  The object it returns therefore carries the id and, in `name`, the creation
  time (`OrganizationByName`).

## Model

| member | source | states |
|---|---|---|
| `Base.SessionHash` | app/web/handlers/base.py:110-117 | The header is absent exactly when the cookie is absent. Otherwise it is `ory_kratos_session=` followed by the cookie value, and the value can be read back. |
| `Base.CheckUuid` | app/web/handlers/base.py:122-137 | As written: a value that is not `None`, a `str` or a `UUID` raises `TypeError`. Every other value is handled as `CheckUuidCorrected` handles it. |
| `Base.CheckUuidCorrected` | app/web/handlers/base.py:122-137 | A UUID comes out exactly for a UUID value (returned unchanged) or a string the parser accepts (its parse). `None`, unparsable strings and values of other types give no UUID, and each logs its own warning. |
| `Base.CheckUuidWrongTypeRaises` | app/web/handlers/base.py:133-135 | `check_uuid(5)` raises as written, where the corrected version returns no UUID with a wrong-type warning. |
| `Base.CheckUuidIdempotent` | app/web/handlers/base.py:133-137 | Passing an accepted result back in gives the same outcome, both as written and corrected. |
| `Base.RespondReply` | app/web/handlers/base.py:143-153 | An error page is sent exactly when it is asked for and the status is at least 400, and then no envelope is written. Status 204 writes no body. Every other case writes an envelope with the reason and data, and `success` is true exactly when the status is below 400. |
| `Base.ErrorMessage` | app/web/handlers/base.py:155-163 | A non-empty message wins. Otherwise the string form of the `exc_info` argument is used, `None` gives the empty text, and a missing `exc_info` raises `KeyError`. |
| `Base.ErrorTemplate` | app/web/handlers/base.py:165-167 | The template is `error/<code>.html`, and the status code can be read back from it. |
| `Base.TemplateStatusUnique` | app/web/handlers/base.py:165 | The only name that reads back to a code is `"error/" + str(code) + ".html"`, so a name such as `error/0404.html` is not one. |
| `Base.ErrorTemplateInjective` | app/web/handlers/base.py:165 | Different status codes use different templates. |
| `Base.GetCurrentUser` | app/web/handlers/base.py:38-100 | No session without the cookie, whatever the two answers are. No session if either fetch fails. The session's hash is the forwarded header. The user-info lookup did not raise. `created` and `number` are unset exactly when no user-info row exists, and otherwise hold that row's values. |
| `Base.Enrich` | app/web/handlers/base.py:83-91 | A raising lookup aborts. Otherwise only `created` and `number` change: they are unset when no row exists and take the row's values when one does. |
| `Base.IdentityUserComplete` | app/web/handlers/base.py:71-82 | A user is built exactly when every identity field it reads is present, the id parses, and the first verifiable address has a `verified` flag. |
| `Base.GetCurrentUserSucceeds` | app/web/handlers/base.py:42-100 | A session is built exactly when all of these hold: there is a cookie, both answers are fetched and decoded, every required field is present, the ids parse, there is a logout URL, and the user-info lookup does not raise. |
| `Base.GetCurrentUserCopiesIdentity` | app/web/handlers/base.py:65-94 | A built session holds these values from the answer unchanged: the ids, the timestamps, the first and last name, email, phone, municipality, country, street, postal code, city, the `verified` flag and the logout URL. |
| `Base.Handler.constructor` | app/web/handlers/base.py:15 | A fresh handler has status 200, an empty body and no session. |
| `Base.Handler.Prepare` | app/web/handlers/base.py:24-36 | The current user becomes the resolved session and nothing else changes. `IsAuthenticated` (`is_authenticated`) then holds exactly when a session was resolved, and an authenticated request had the cookie. |
| `Base.Handler.WriteError` | app/web/handlers/base.py:155-167 | Either the method raises and leaves status, reason and body untouched, or it sets the status and the chosen message and renders the status's error template. |
| `Base.Handler.SendError` | app/web/handlers/base.py:146 | The unsent output is cleared and the status is set to the code. `write_error` then runs without `exc_info`. With an empty message it raises, and the response keeps the standard reason phrase and an empty body. Otherwise the message becomes the reason and the error template is the body. |
| `Base.Handler.Respond` | app/web/handlers/base.py:143-153 | The new status, reason and body match the branch `RespondReply` chooses. An error page goes through `SendError`. |
| `Organizations.Create` | app/database/dao/organizations.py:15-36 | A unique-key violation on the id or the name returns `None` and leaves the tables unchanged. Otherwise exactly the new row is appended and the record echoes the inputs. Unique keys are preserved. |
| `Organizations.OrganizationById` | app/database/dao/organizations.py:52 | Found exactly when a row has the id, and the result is that row's record. |
| `Organizations.GetDefaultOrganization` | app/database/dao/organizations.py:38-52 | `None` when the read fails or the cell is null. A result is the record of the row the cell names, field for field, and it is found whenever that row exists. |
| `Organizations.FirstNamed` | app/database/dao/organizations.py:55-59 | A row is found exactly when one has the name, and the row found is a row of the table with that name. |
| `Organizations.GetOrganizationByName` | app/database/dao/organizations.py:54-74 | The result is present exactly when the read succeeds and a row has the name. It holds that row's id, and its `name` holds the row's creation time. |
| `Organizations.GetOrganizationByNameUnique` | app/database/dao/organizations.py:54-74 | When names are unique, looking up a row's name returns that row. |
| `Organizations.GetOrganizationsQuery` | app/database/dao/organizations.py:81-97 | The direction is `ASC` exactly when ascending is requested, and `DESC` otherwise. The column is always `name`. The filter is absent exactly for the empty search and is otherwise the search text. |
| `Organizations.FilterRows` | app/database/dao/organizations.py:98-102 | A row is kept exactly when its name, description or created text contains the search text, and it comes back as often as it occurs in the table. Without a search every row is kept. |
| `Organizations.ExecuteQuery` | app/database/dao/organizations.py:89-106 | The result is a permutation of the matching rows, so each matching row comes back exactly as often as it occurs in the table. It contains nothing else and is ordered by the column: ascending for `ASC`, descending otherwise. |
| `Organizations.EmptySearchListsAllByName` | app/database/dao/organizations.py:86-95 | With an empty search, every row comes back sorted by name in the requested direction, whatever column was asked for. |
| `Organizations.RowsToRecords` | app/database/dao/organizations.py:108-119 | One record per row, in row order, field for field. |
| `Organizations.SetFields` | app/database/dao/organizations.py:122 | Every row keeps its id and creation time. Rows with the id get the new name, description and active flag, and all other rows are unchanged. Without a name conflict, unique keys stay unique. |
| `Organizations.Update` | app/database/dao/organizations.py:121-132 | A name conflict returns `None` and changes nothing. Otherwise only that row changes, the settings and memberships are untouched, and unique keys are preserved. The result is the updated row read back, or `None` exactly when the id is absent. |
| `Organizations.WithoutId` | app/database/dao/organizations.py:148 | Exactly the rows without the id remain. |
| `Organizations.WithoutIdUnique` | app/database/dao/organizations.py:148 | Deleting rows preserves unique keys. |
| `Organizations.Delete` | app/database/dao/organizations.py:134-151 | The result is true exactly when all three steps succeed. The steps run in order and stop at the first failure, with nothing rolled back: memberships go first, then the default setting is cleared if it names the id, then the row is removed. |
| `Organizations.DeleteClearsOnlyOwnDefault` | app/database/dao/organizations.py:139-142 | The default setting only changes from this id to null. |
| `Organizations.DeleteCompleteLeavesNoReference` | app/database/dao/organizations.py:134-151 | After a complete delete, no row, setting or membership refers to the id. |
| `Organizations.DeletePartialState` | app/database/dao/organizations.py:135-151 | A failure after the membership step leaves the row in place with its memberships gone. |
| `Organizations.OrganizationsDao.constructor` | app/database/dao/organizations.py:14 | The object holds the given tables. |
| `Organizations.OrganizationsDao.CreateOrganization` | app/database/dao/organizations.py:15-36 | The result and the new tables are those of `Create`, and unique keys are kept. |
| `Organizations.OrganizationsDao.UpdateOrganization` | app/database/dao/organizations.py:121-132 | The result and the new tables are those of `Update`, and unique keys are kept. |
| `Organizations.OrganizationsDao.DeleteOrganization` | app/database/dao/organizations.py:134-151 | The result and the new tables are those of `Delete`, and unique keys are kept. |
| `Organizations.OrganizationsDao.GetOrganizations` | app/database/dao/organizations.py:76-119 | The records are the query's rows, one for one and in order. |
| `AddOrganization.GetParentId` | assets/ts/entrypoints/add-organization.ts:10-26 | The fallback is used when the path is the id itself or has no dot. Otherwise the parent is the second-to-last dot-separated segment. The result is always the fallback or a dot-free segment of the path. |
| `AddOrganization.ParentOfJoinedPath` | assets/ts/entrypoints/add-organization.ts:16-21 | For a path joined from two or more dot-free segments, the parent is the segment before the last. |
| `AddOrganization.AdditionFor` | assets/ts/entrypoints/add-organization.ts:36-46 | An area is added under `getParentID` of its path. A municipality is added under its area, or under the country when its area is empty, so its parent is never empty unless the country id is. |
| `AddOrganization.EntryAdditionsExactlyEligible` | assets/ts/entrypoints/add-organization.ts:32-48 | The loop adds exactly the areas that have a path and the municipalities that have an area, each under its computed parent. |
| `AddOrganization.EntryAdditionsCount` | assets/ts/entrypoints/add-organization.ts:32-48 | The loop makes one call per eligible entry. |
| `AddOrganization.LookupKey` | assets/ts/entrypoints/add-organization.ts:30 | Nothing is found exactly when no entry has the key, and a found value belongs to an entry with that key. |
| `AddOrganization.OnPageLoad` | assets/ts/entrypoints/add-organization.ts:28-58 | The country is added first, then the loop's additions in entry order. When the country id is not a key, nothing is added and neither the search handler nor the save handler is installed, so `OnSave` can only run after a page load that found the country. |
| `AddOrganization.OnSave` | assets/ts/entrypoints/add-organization.ts:57-83 | Nothing is sent exactly when one of the name, description or active element lists is empty. Otherwise the first name value, the first description value, the first active flag and the checked selections are sent. |
| `Geography.SortAreas` | app/web/handlers/admin/geography.py:20 | The rendered areas are a permutation of the fetched ones, in non-decreasing number of `.` in the path. |
| `Geography.SortAreasStable` | app/web/handlers/admin/geography.py:20 | Areas of equal depth keep their relative order. |
| `Geography.Get` | app/web/handlers/admin/geography.py:7-29 | A refusal (403) happens exactly when permission is false. Indexing raises exactly when there are no countries. Otherwise the page is rendered with `admin` equal to the permission, all countries, the first country's municipalities, and its areas sorted by depth. |
| `Geography.DeniedStillRenders` | app/web/handlers/admin/geography.py:12-22 | A denied request gets the 403 envelope and is still rendered. |
| `Geography.GetAreasStable` | app/web/handlers/admin/geography.py:17-28 | Within each depth, the rendered areas keep the order the store returned them in. |
| `Strings.JoinSplit` | assets/ts/entrypoints/add-organization.ts:16 | Joining the dot-split pieces gives the path back. |
| `Strings.SplitJoin` | assets/ts/entrypoints/add-organization.ts:16 | Splitting a join of dot-free pieces gives the pieces back. |
| `Strings.ContainsAt` | app/database/dao/organizations.py:97-102 | The `%search%` pattern matches exactly when the search text occurs at some position. |
| `Strings.DecimalRoundTrip` | app/web/handlers/base.py:165 | `str(code)` can be parsed back to the code. |
| `Strings.DecimalCanonical` | app/web/handlers/base.py:165 | A numeral that parses to `n` is `str(n)`. The parser rejects leading zeros and `-0`. |
| `Sorting.SortByKeySorted` | app/web/handlers/admin/geography.py:20 | The sort by key orders its result. |
| `Sorting.SortByKeyStable` | app/web/handlers/admin/geography.py:20 | The sort by key is stable. |

## Findings

| source | as written | input that shows it | evidently intended | confidence | as-written member | corrected member |
|---|---|---|---|---|---|---|
| app/web/handlers/base.py:134 | The wrong-type warning calls `type(uuid).__str__()`, which is an unbound `__str__` with no argument, so it raises `TypeError` | `check_uuid(5)` | Log "UUID is wrong type: int" and return `None` | high; not executed | `Base.CheckUuid`, `Base.CheckUuidWrongTypeRaises` | `Base.CheckUuidCorrected` |

## Left out

- HTTP and JSON. Kratos is not called and nothing is decoded. The model takes
  the decoded `whoami` and `logout` answers as inputs, with a failed fetch or
  decode as their own variant. Every JSON field is either a value of the
  expected type or missing. JSON `null` and values of other types are not
  represented. In the source, a container or id of the wrong type raises, and
  the request ends unauthenticated. A `null` or wrong-typed leaf such as
  `email`, `phone` or `verified` is stored as it is in the `User`, and the
  session is still built.
- UUID text syntax. `UUID(str)` is a parameter `parseUuid`.
- `uuid4()` and `datetime.utcnow()`. They are parameters of
  `OrganizationsDao.CreateOrganization`.
- Tornado internals: rendering templates, finishing the response, headers,
  cookies, and logging. Tornado's table of standard reason phrases is the
  parameter `reasonPhrase` of `Respond`. `send_error` after the headers were
  already sent is not modelled. Logging is kept only as the warning kind in
  `check_uuid`. The `@tornado.web.authenticated`
  redirect is not modelled, and neither are the internals of
  `permission_check`; the geography handler takes the check's result as a
  boolean.
- PostgreSQL semantics. `ORDER BY` uses code-point order instead of the
  database collation. `LIKE` wildcard characters inside the search text are
  matched literally. The `to_char` text of `created` is an opaque string.
- Connection-pool errors. Reads that can fail (`get_default_organization`,
  `get_organization_by_name`) take a `readFails` flag. The insert of
  `create_organization` and the update of `update_organization` catch only
  `UniqueViolationError`, and the listing query catches nothing. Any other
  database error of these three raises, and the model covers only their
  success and unique-violation paths.
- `MemberOrgDao.remove_memberships_from_org`, `get_organization_by_id`,
  `UsersDao.get_user_info` and `GeographyDao` are not part of this model.
  - The membership step removes the organization's membership rows or reports
    failure, as the flag `DeleteSteps.membershipsRemoved` says, and changes
    nothing when it fails.
  - `get_organization_by_id` is a lookup by key.
  - `get_user_info` is a function that may raise, find nothing, or find a row.
  - The geography store is the country list and two functions from a country id.
- The missing settings row in `get_default_organization`, where
  `row["default_organization"]` would fail on `None`. The model always has the
  single settings cell.
- DOM and network in the page script. `addCountry`, `addArea` and
  `addMunicipality` are recorded as a list of calls. The form elements and
  checked selections are inputs. `sendCreateOrganizationRequest`, the search
  box and the result messages are not modelled. `for ... in` over `geodata` is
  taken in the order of a sequence of entries.
- AddOrganization.OnPageLoad: the `TypeError` thrown for a missing country is
  modelled as "nothing added, no handler installed". The rejected promise and
  `console.error` are not represented. A page without a `saveButton` element,
  where installing the handler would throw too, is not represented.
- Concurrency between requests. Each operation is one sequential step.
- In-place construction in `get_current_user`. The source fills fresh
  `Session` and `User` objects attribute by attribute and never shares them
  before returning. The model builds them as values, so it says nothing about
  aliasing of half-built objects.
