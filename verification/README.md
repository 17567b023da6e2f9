# Client and project tracker: ownership-scoped store

This project models the core of a small client/project tracking web application. Logged-in users
record clients, attach projects to those clients, and see a dashboard. The dashboard shows their
revenue total, their projects in a chosen order and their clients.

The model leaves out the web framework and the SQL engine. Each route handler is a pure function
from the database, the session's user and the submitted form to a new database and a response.
A response is a redirect to a path or a rendered view carrying its data. Each SQL statement's
WHERE or JOIN predicate is written out as a filter over the tables.

- `Schema` holds the three tables `users`, `clients` and `projects` as maps from row id to row. A
  `State` is a database whose id counters lie above every id in use, so an insert takes the counter
  as the fresh id. A user owns a client directly. A user owns a project through the project's
  client.
- `Tables` has the rowid scan `Select`, which evaluates a WHERE clause and lists the matching ids
  in ascending order. It also proves that an ascending listing is fixed by its members.
- `Dashboard` has the owner-scoped queries: the joined project listing, the client listing, one
  client's projects, and the revenue SUM with its NULL-to-0 fallback.
- `Ordering` has the ORDER BY keys of the listings and an insertion sort. The sort returns a
  permutation of its input, sorted by the key.
- `Web` has the request and response shapes: forms, sessions, redirect targets and views.
- `Helpers.LoginRequired` is the login guard.
- `Handlers` has one function per route.
- `Routes.Serve` is the route table, with the guard on every route except login and logout. It
  carries the ownership-isolation lemmas.
- `Laws` relates the handlers to each other and to the revenue total.

Text form fields are `Option<string>`; `None` means the field was not sent. Python's truthiness
test on such a field (`not name`) is `Web.Present`. The numeric and date fields `value`,
`deadline` and `client_id` are `Option<int>`, `Option<nat>` and `Option<nat>`. For these, `None`
stands for a field that is absent or empty. A project's `value` is a whole number, for example
pence, and its `deadline` is a day number. The password-hash check is passed in as the function
`checkHash` over a hash and a submitted password. When the password field is missing, the hash
check raises, and the model answers that login attempt with `ServerError`.

Two behaviours of the code worth noting:
- `delete_client` deletes only the client row (app.py:185). Its projects stay in `projects`. Because
  the model never hands out a used id again, no user's join reaches them afterwards; see
  `Routes.Isolation` under "## Left out" for what happens when SQLite reuses the id.
- `client_details` orders by `deadline ASC` (app.py:166). SQLite puts NULL first in that order, so
  the model uses `ByDeadlineNullsFirst` there. The dashboard default uses `NULLS LAST`
  (app.py:66).

## Model

| member | source | states |
|---|---|---|
| Dashboard.OwnedProjectIds | app.py:69-75 | the join lists exactly the ids of projects whose client has `user_id` = the user, ascending |
| Dashboard.OwnedClientIds | app.py:78 | the client query lists exactly the ids of clients with `user_id` = the user, ascending |
| Dashboard.ClientProjectIds | app.py:165-166 | the query lists exactly the ids of projects with that `client_id`, ascending |
| Dashboard.OwnedRows | app.py:69-75 | every joined row is one of the user's projects as stored, with its client's name; every project of the user appears; ids strictly ascend, so each appears once |
| Dashboard.OwnedClients | app.py:78 | every listed client is the user's, as stored; every client of the user appears once |
| Dashboard.ClientRows | app.py:165-166 | the listing holds exactly the projects of that client, as stored, each once |
| Dashboard.SumColumn | app.py:37-42 | `SUM(value)` is NULL exactly when the join has no rows |
| Dashboard.TotalRevenue | app.py:37-46 | the revenue is the sum of `value` over the user's joined projects, and 0 when the user has no projects |
| Dashboard.SumPermutation | app.py:37-42 | the sum does not depend on the order of the rows |
| Dashboard.PermutedListing | app.py:69-75 | any reordering of the joined rows still lists exactly the user's projects and still sums to the revenue |
| Dashboard.PermutedClientListing | app.py:165-166 | any reordering of a client's projects still lists exactly that client's projects, each once |
| Ordering.TextLeTotal | app.py:61 | any two client names are comparable under `clients.name ASC` |
| Ordering.TextLeTransitive | app.py:61 | the name order is transitive |
| Ordering.Rank | app.py:52-58 | importance ranks lie in 1..4, and rank 4 is exactly anything other than High, Medium or Low, NULL included |
| Ordering.SortKeyOf | app.py:49-66 | `importance`, `client` and `value` pick the importance, client-name and value orders; every other value falls back to deadline order |
| Ordering.LeTotal | app.py:49-66 | every ORDER BY key compares any two rows |
| Ordering.LeTransitive | app.py:49-66 | every ORDER BY key is transitive |
| Ordering.Insert | app.py:74 | inserting a row adds exactly that row to the multiset of rows |
| Ordering.InsertKeepsSorted | app.py:74 | inserting into a sorted listing keeps it sorted |
| Ordering.SortRows | app.py:74 | the ordered listing is a permutation of the rows, sorted by the key; tie order is not promised |
| Ordering.ImportanceOrder | app.py:51-59 | importance order lists High before Medium before Low before anything else |
| Ordering.DeadlineOrder | app.py:64-66 | the default order lists deadlines ascending, with missing deadlines after all present ones |
| Ordering.ValueOrder | app.py:62-63 | value order lists larger values first |
| Ordering.ClientOrder | app.py:60-61 | client order lists client names ascending under the text collation |
| Handlers.Index | app.py:29-84 | the dashboard changes nothing. It lists exactly the user's projects, once each, sorted by the requested key (default `deadline`), and exactly the user's clients, once each, by ascending id. Its revenue is the sum of the listed values |
| Handlers.AddClient | app.py:87-109 | GET shows the form. A missing or empty name redirects to `/addclient` with no change. Otherwise exactly one client is inserted under a fresh id, its `user_id` is the session's user, and no other row changes |
| Handlers.NewProject | app.py:122-146 | the inserted project takes the submitted client, name, description, status and importance; an empty value becomes 0 and an empty deadline NULL |
| Handlers.AddProject | app.py:112-153 | GET lists exactly the user's clients, once each. A missing client id or name redirects to `/addproject` with no change. A client the user does not own redirects to `/` with no change. Otherwise exactly one project of that client is inserted under a fresh id and nothing else changes |
| Handlers.ClientDetails | app.py:156-168 | changes nothing. A client the user does not own redirects to `/`. An owned client is shown with exactly its projects, once each, in deadline order with NULL first |
| Handlers.DeleteProject | app.py:171-179 | removes exactly that project when its client is the user's, else changes nothing. Clients and users never change |
| Handlers.DeleteClient | app.py:182-187 | removes exactly that client when it is the user's, else changes nothing. Projects and users never change |
| Handlers.EditedClient | app.py:249-253 | an update sets name, company, email, phone and status from the form and keeps `user_id` |
| Handlers.EditClient | app.py:223-259 | a client the user does not own redirects to `/` with no change. GET shows the client. An empty name redirects back with no change. Otherwise only that client's editable fields change, its owner stays, and the reply redirects to the client page |
| Handlers.EditedProject | app.py:286-301 | an update sets the editable fields from the form, with 0 and NULL for empty value and deadline, and keeps `client_id` |
| Handlers.EditProject | app.py:261-307 | a project whose client the user does not own redirects to `/` with no change. GET shows the project. An empty name redirects back with no change. Otherwise only that project's editable fields change, it stays the user's, and the reply redirects to its client's page |
| Handlers.UsersNamed | app.py:196 | the lookup lists exactly the users with the submitted name; a missing name matches nobody |
| Handlers.Login | app.py:192-201 | never changes the database. The session is cleared unless exactly one user has the name and a submitted password checks against its hash. Success sets the session to that user and redirects to `/`. A server error happens only for a POST without a password whose name exactly one user has |
| Handlers.Logout | app.py:204-207 | clears the session, changes nothing else and redirects to `/` |
| Helpers.LoginRequired | helpers.py:10-20 | with no user in the session the handler does not run, and the visitor is sent to `/login` with nothing changed. Otherwise the result is the handler's. The guard never touches the session |
| Routes.Serve | app.py:29-30 | guarded routes keep the session. Login and logout never change the database |
| Routes.AnonymousIsTurnedAway | helpers.py:17-18 | without a session every guarded route answers with a redirect to `/login` and changes nothing |
| Routes.AnonymousChangesNothing | helpers.py:15-20 | without a session no request changes the database |
| Routes.LogoutLocksOut | app.py:204-207 | after logout every guarded route redirects to `/login` |
| Routes.ConfinedKeepsOthers | app.py:174-185 | a step that touches only user B's rows leaves every other user's clients and projects as they were, and gives them no new ones |
| Routes.DashboardDependsOnShare | app.py:37-78 | a user's dashboard depends only on that user's clients and projects |
| Routes.StepIsConfined | app.py:97-301 | every request of user B touches only B's rows, creates only B's rows, never changes a row's owner, and renders only B's data |
| Routes.Isolation | app.py:137-141 | whatever user B requests, every client and project of another user A is unchanged, A gains none, A's dashboard is unchanged, and the response shows only B's data |
| Laws.OwnedIdsAfterInsert | app.py:143-146 | inserting a project of the user's client appends its fresh id to the user's listing |
| Laws.OwnedIdsAfterRemove | app.py:174-177 | deleting one of the user's projects drops exactly its id from the user's listing |
| Laws.RevenueAfterInsert | app.py:143-146 | inserting a project of the user's raises the user's revenue by its value |
| Laws.RevenueAfterRemove | app.py:174-177 | removing one of the user's projects lowers the user's revenue by its value |
| Laws.RevenueAfterAddProject | app.py:123-146 | an accepted `add_project` raises the user's revenue by the submitted value, or by 0 when the value is empty |
| Laws.RevenueAfterDeleteProject | app.py:171-177 | deleting one of the user's projects lowers the user's revenue by that project's value |
| Laws.AddThenDeleteClient | app.py:101-104 | deleting a client just added restores all three tables |
| Laws.AddThenDeleteProject | app.py:143-146 | deleting a project just added restores all three tables |
| Laws.EditClientIdempotent | app.py:249-253 | submitting the same client edit twice has the effect of submitting it once |
| Laws.EditProjectIdempotent | app.py:297-301 | submitting the same project edit twice has the effect of submitting it once |
| Laws.ForeignClientLooksMissing | app.py:158-161 | on the details page, another user's client gets the same answer as a client id that does not exist |
| Laws.ForeignClientEditLooksMissing | app.py:229-234 | on the edit page, for any method and form, another user's client gets the same answer as a client id that does not exist |
| Laws.ForeignProjectEditLooksMissing | app.py:267-276 | on the edit page, for any method and form, a project of another user's client gets the same answer as a project id that does not exist |
| Laws.ForeignProjectDeleteLooksMissing | app.py:174-177 | deleting a project of another user's client changes nothing, exactly like deleting a project id that does not exist |
| Laws.LoginAcceptsUniqueMatch | app.py:196-200 | when exactly one user has the name and the password checks, login sets the session to that user and redirects to `/` |
| Laws.LoginWithoutPassword | app.py:196-197 | when exactly one user has the name and no password is sent, the hash check raises and the request ends in a server error with the session cleared |

## Left out

- Routing, templates, flash messages and the cache headers (app.py:17-22) are HTTP and
  presentation. A response is a redirect target or a view with its data. Flash messages are not
  modelled.
- The session store and the database engine configuration (app.py:10-14) are left out. The
  session is `Option<UserId>`.
- Password hashing belongs to a foreign library (app.py:197, app.py:215). The check is the
  parameter `checkHash`.
- `register` (app.py:210-220) is not modelled. Whether it fails depends on a UNIQUE constraint in
  a schema that is not part of this model, and that failure is caught by a bare `except`.
- Deleting a client does not delete its projects here, because the code issues no such statement.
  A cascade would live in the table schema, which the code does not show, and would need
  SQLite's foreign-key setting.
- Id allocation is modelled as a counter that never reuses an id. Whether SQLite reuses the
  largest deleted rowid depends on the table schema, which the code does not show.
- Routes.Isolation: isolation is proved only for ids that are never reused. Without
  AUTOINCREMENT, SQLite gives a new row the largest rowid plus one. If user A deletes their
  highest-id client, its projects stay behind (app.py:185), and the next `add_client` of any
  user B (app.py:101-104) can take that id. A's leftover projects would then join to B's client:
  B's dashboard would list them and count them in B's revenue (app.py:37-75), and B could edit or
  delete them (app.py:174-177, app.py:267-272). The model cannot show this.
- Numbers and dates: `value` is an integer rather than an SQLite REAL, and `deadline` is a day
  number rather than a date string. A non-numeric `client_id` is modelled as an id that matches no
  client. Text that SQLite would store in the `value` column is not modelled.
- Handlers.Index: the tie order within one sort key is left open. Only the permutation and the
  sortedness are stated, as SQL promises no more.
- `gbp` (helpers.py:22-24) is floating-point currency formatting. The unused imports in
  helpers.py (lines 1-5) are left out too.
- Concurrency: each request is one atomic step on the database.
