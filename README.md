# Caregiving marketplace record store, modelled in Dafny

This project models the record store behind a small Flask application for a
caregiving marketplace. The store holds seven tables:

- users
- caregiver profiles
- member profiles
- member addresses
- job postings
- job applications
- appointments

Each table has create, edit and delete handlers. Before changing anything, a
handler looks up the rows its input refers to and checks the one-to-one rules.
The model leaves out the web layer and the ORM. What remains is a class
`Store.RecordStore` with one `map` per table and one method per handler.
Each method returns `Ok` or the error that the handler reports.

Files:

- `wrappers.dfy`: `Option`, for nullable columns and optional form fields.
- `keys.dfy`: surrogate-key allocation. The SQL `max` aggregate is `MaxKey`.
  The "max + 1, or 1 on an empty table" rule is `NextKey`, with lemmas on how
  keys behave across inserts and deletes.
- `config.dfy`: the connection-string rewrite from `postgres://` to
  `postgresql://`, including a model of Python's `str.replace(old, new, 1)`.
- `tables.dfy`: the row types, the `Outcome` of a handler, and `Db`, a snapshot
  of all seven tables. `Consistent` says that every foreign key resolves. The
  `...Unreferenced` predicates say that no other row refers to a given row.
- `store.dfy`: the class and its 21 handlers. Each handler's contract states:
  - the order of its checks, as the exact error it returns;
  - that nothing changes on an error;
  - its whole new state, as a single-table update of the old snapshot;
  - that it preserves `Consistent` (for the four parent deletes: exactly when
    no row refers to the deleted one).
- `scenarios.dfy`: client methods that create users, profiles, jobs and
  applications and then edit and delete them, asserting only what the
  handlers' contracts give:
  - keys 1, 2, 3, then 4 after deleting 2, and 3 again after deleting 3;
  - user, member, job, caregiver and one application, with a second identical
    application refused;
  - an address for a missing member is refused;
  - an application cannot be moved onto an existing pair;
  - a user delete leaves a dangling caregiver profile;
  - a 404 after a delete.

Dates, times and the decimal `hourly_rate` are the opaque types `Date`, `Time`
and `Decimal`. Where a handler uses the database's current date, the method
takes a `today` parameter.

Two facts about the handler code shape the contracts:

- Only `edit_job`, `edit_job_application` and `edit_appointment` re-check
  foreign keys. The caregiver, member and address edits rewrite non-key
  fields only.
- The delete handlers remove exactly one row and look at no child rows. So
  `Consistent` is preserved by every create and edit. A delete of a parent row
  from a consistent store preserves it exactly when no row refers to the
  deleted one. `DeletesCanOrphan` and the scenario `DeleteLeavesOrphan` show
  such a delete breaking it in the handler logic as modelled. The running
  application cannot reach that state, because the ORM's nullify-on-delete
  makes those deletes fail (see "## Left out").

## Model

| member | source | states |
|---|---|---|
| Keys.MaxKey | app.py:119 | The `max` aggregate over a key column: NULL exactly when the table is empty, otherwise a key in the table that no key exceeds. |
| Keys.MaxExists | app.py:119-120 | Every non-empty key set has a largest element, so the aggregate is NULL only for an empty table. |
| Keys.NextKey | app.py:119-122 | The allocated key is 1 on an empty table; otherwise it is one more than a key in the table. It is not in the table and is greater than every existing key. |
| Keys.NextKeyAfterInsert | app.py:119-124 | Inserting the allocated key makes the next allocation exactly one larger, so successive creates get consecutive keys. |
| Keys.NextKeyAfterDelete | app.py:119-122 | Deleting any row other than the one with the largest key leaves the next allocated key unchanged, so a deleted key in the middle is not reused. |
| Keys.NextKeyReusesDeletedMax | app.py:119-122 | With positive keys, deleting the row with the largest key lets the next create get that key or a smaller one: the policy is not a monotonic counter. |
| Config.StartsWith | app.py:11 | `s.startswith(p)` holds exactly when `s` is `p` followed by some string. |
| Config.ReplaceFirst | app.py:12 | Python's `replace(old, new, 1)`. Its contract is given by `ReplaceFirstAt` and `ReplaceFirstUnchanged`. |
| Config.ReplaceFirstAt | app.py:12 | `replace(old, new, 1)` replaces the leftmost occurrence of `old`, keeping everything before and after it. |
| Config.ReplaceFirstUnchanged | app.py:12 | `replace(old, new, 1)` returns the string unchanged when `old` does not occur in it. |
| Config.NormalizeDbUrl | app.py:11-12 | A URL starting with `postgres://` gets that prefix replaced by `postgresql://`; any other URL is unchanged. The result never starts with `postgres://`. |
| Config.NormalizeIdempotent | app.py:11-12 | Normalising twice equals normalising once. |
| Config.SchemesAreAliases | app.py:11-12 | `postgres://rest` and `postgresql://rest` normalise to the same URL. |
| Tables.Consistent | app.py:37-95 | Every `db.ForeignKey` of the schema resolves: caregiver and member keys are user keys, address keys are member keys, and every job, application and appointment refers to existing parent rows. Every create and edit preserves it, and so do the address, application and appointment deletes; the four parent deletes preserve it exactly when no row refers to the deleted one. |
| Tables.MoveKeepsSize | app.py:401-407 | Removing a key and inserting its value at the same or a free key keeps the table size. |
| Tables.DeletesCanOrphan | app.py:155-160 | For each parent table there is a consistent store where removing one parent row leaves a dangling foreign key. This covers delete_user (app.py:155-160), delete_caregiver (app.py:204-209), delete_member (app.py:249-254) and delete_job (app.py:351-356), none of which checks for child rows. |
| Store.RecordStore.constructor | app.py:18 | A new store has seven empty tables. |
| Store.RecordStore.CreateUser | app.py:118-134 | The new user gets `NextKey` of the user keys. Exactly one row is added and no other table changes. The user table grows by one. Consistency is preserved. |
| Store.RecordStore.EditUser | app.py:141-150 | NotFound for an absent key. Otherwise every editable field of that row is rewritten under the same key and nothing else changes. |
| Store.RecordStore.DeleteUser | app.py:156-160 | NotFound for an absent key. Otherwise exactly that row is removed. From a consistent store, consistency is preserved if and only if no caregiver or member profile refers to the user. |
| Store.RecordStore.CreateCaregiver | app.py:171-185 | UserMissing if the user is absent; then AlreadyCaregiver if the profile exists. On error nothing changes. On success one row is added at that user's key. |
| Store.RecordStore.EditCaregiver | app.py:193-199 | NotFound for an absent key. Otherwise the profile fields are rewritten, with no foreign-key check. |
| Store.RecordStore.DeleteCaregiver | app.py:205-209 | NotFound for an absent key. Otherwise exactly that row is removed. From a consistent store, consistency is preserved if and only if no application or appointment refers to the caregiver. |
| Store.RecordStore.CreateMember | app.py:220-232 | UserMissing if the user is absent; then AlreadyMember if the profile exists. On error nothing changes. On success one row is added at that user's key. |
| Store.RecordStore.EditMember | app.py:240-244 | NotFound for an absent key. Otherwise the profile fields are rewritten, with no foreign-key check. |
| Store.RecordStore.DeleteMember | app.py:250-254 | NotFound for an absent key. Otherwise exactly that row is removed. From a consistent store, consistency is preserved if and only if no address, job or appointment refers to the member. |
| Store.RecordStore.CreateAddress | app.py:265-278 | MemberMissing if the member is absent; then AddressExists if the member has an address, so there is at most one address per member. On error nothing changes. |
| Store.RecordStore.EditAddress | app.py:286-291 | NotFound for an absent key. Otherwise the address fields are rewritten, with no foreign-key check. |
| Store.RecordStore.DeleteAddress | app.py:298-302 | NotFound for an absent key. Otherwise exactly that row is removed. Consistency is always preserved. |
| Store.RecordStore.CreateJob | app.py:313-329 | The key is `NextKey` of the job keys, computed even when the member check fails. MemberMissing leaves every table unchanged. On success the job is posted `today`. |
| Store.RecordStore.EditJob | app.py:337-345 | NotFound first, then MemberMissing. On success member, type and requirements are rewritten; the key and `date_posted` are kept. |
| Store.RecordStore.DeleteJob | app.py:352-356 | NotFound for an absent key. Otherwise exactly that row is removed. From a consistent store, consistency is preserved if and only if no application refers to the job. |
| Store.RecordStore.CreateJobApp | app.py:367-382 | CaregiverMissing, then JobMissing, then AppExists; the first failure changes nothing. On success exactly one row is added at the pair, with `date_applied` = `today`. |
| Store.RecordStore.EditJobApp | app.py:390-408 | NotFound, then CaregiverMissing, then JobMissing, then AppExists for a changed pair that already exists; on every error the old row stays. On success:<br>- the row moves to the new pair with its original `date_applied`;<br>- the old pair is gone when the pair changed;<br>- the table size is unchanged;<br>- an unchanged pair leaves the table identical. |
| Store.RecordStore.DeleteJobApp | app.py:416-420 | NotFound for an absent pair. Otherwise exactly that row is removed. Consistency is always preserved. |
| Store.RecordStore.CreateAppointment | app.py:431-452 | The key is `NextKey` of the appointment keys, computed before the checks. CaregiverMissing, then MemberMissing; a failure changes nothing. On success one row is added. |
| Store.RecordStore.EditAppointment | app.py:460-475 | NotFound, then CaregiverMissing, then MemberMissing. On success every field of the row is rewritten under the same key. |
| Store.RecordStore.DeleteAppointment | app.py:483-487 | NotFound for an absent key. Otherwise exactly that row is removed. Consistency is always preserved. |

## Left out

- Routing, templates, redirects and the GET form pages: these are the presentation layer. Each method returns the handler's outcome instead of a redirect or an error string.
- The `list_*` handlers: they return a whole table in an unspecified order. The table fields of `RecordStore` are that content.
- Session mechanics (`add`, `delete`, `commit`, `get_or_404`): each handler is one atomic method.
- Reading `DATABASE_URL` from the environment (app.py:9) is I/O. `NormalizeDbUrl` takes the string as a parameter.
- Concurrency: another request can insert between the `max` query and the insert, or delete a parent between a check and the write. The model is sequential.
- Constraints that only the database enforces are not modelled, because the handlers do not implement them:
  - the unique email (app.py:25);
  - the `String(n)` length limits on text columns (app.py:25-99);
  - foreign-key enforcement at commit.

  So a duplicate email or an over-long string succeeds in the model.
- The ORM's behaviour on delete is not modelled. Every foreign key has a `db.relationship(..., backref=...)` with the default cascade (app.py:43, 53, 64, 76, 86-87, 101-102). So deleting a parent with children makes the ORM set each child's foreign key to NULL. For caregiver, member, address and job application that key is part of the primary key; for job and appointment it is NOT NULL. Either way the flush fails and nothing is committed. The model follows the handler text, where such a delete succeeds. `DeletesCanOrphan` and `DeleteLeavesOrphan` therefore describe the handler logic, not a state the running application can reach.
- Form parsing: `int(...)` on a non-number and a missing form field crash the handler. The methods take already-parsed values.
- Converting date, time and decimal strings. `Date`, `Time` and `Decimal` are opaque, and `func.current_date()` becomes the `today` parameter.
- Integer width: the key columns and `work_hours` are 32-bit database integers, but the model uses unbounded `int`. An overflow of `max + 1` would be a database error, which is outside the handlers.
