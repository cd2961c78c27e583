# Users page of React-Axios-Crud, modelled in Dafny

The application lists, creates, updates and deletes user records held by a
REST API. Its only logic is the state kept by the users page
(`src/pages/UsersPage.tsx`): the in-memory list `users`, the create form
(`newUserName`, `newUserEmail`), the selected id `selectedUserId` and the
update form (`updatedName`, `updatedEmail`). The handlers change that state
after a call to the API succeeds, and leave it alone when the call fails.

The model has three modules:

- `UserRecords` (`user_records.dfy`): the `User` record (`id`, `name`,
  `email`, and a `Profile` with every other field either page displays) and the
  list values the handlers compute. `WithoutId` is the filter of a delete.
  `WithUpdatedContact` is the map of an update. A create is a plain
  append. Lemmas relate the three. Ids are not assumed unique: nothing on
  the client enforces it, and a create may append an id already listed.
- `UsersApi` (`users_api.dfy`): the page's view of `src/api/users.ts`. It
  holds the `Request` a handler issues and the `Outcome` of the call:
  `Success(body)` or `Failure`.
- `Pages` (`users_page.dfy`): the class `UsersPage` with the six state cells
  as fields. Each handler is a method that takes the call's outcome as a
  parameter and returns the request it sent. Its `ensures` give the whole new
  state through `State()`, so "nothing else changes" is part of each contract.

`selectedUserId` is an `Option<int>`: `None` stands for `null`. The update
guard follows JavaScript truthiness, so `Some(0)` counts as "no selection".
The popup is shown whenever the id is not `null` (line 107), so a record with
id 0 opens a popup whose Update button does nothing
(`UpdateWithIdZeroIsStuck`).

The page has no delete-confirmation overlay and no popup flags: Delete calls
the handler directly (line 90), and the update popup is shown exactly when
`selectedUserId` is not `null` (line 107). An update rewrites every record
with the selected id, not only the first.

## Model

| member | source | states |
|---|---|---|
| `UserRecords.WithoutId` | src/pages/UsersPage.tsx:30 | after a delete, exactly the records without the id remain: a record is in the result iff it was in the list and its id differs, and the length drops by the number of records with that id |
| `UserRecords.WithoutIdKeepsOrder` | src/pages/UsersPage.tsx:30 | the records a delete keeps stay in their original relative order (the result is the list read at strictly increasing positions) |
| `UserRecords.WithoutAbsentId` | src/pages/UsersPage.tsx:30 | deleting an id no record carries leaves the list unchanged |
| `UserRecords.WithoutIdIdempotent` | src/pages/UsersPage.tsx:30 | deleting the same id twice equals deleting it once |
| `UserRecords.WithoutIdConcat` | src/pages/UsersPage.tsx:30 | the delete filter treats each record on its own: filtering a concatenation is concatenating the filtered parts |
| `UserRecords.AppendedCountsOnce` | src/pages/UsersPage.tsx:40 | appending the created record adds exactly one record with its id |
| `UserRecords.CreateThenDeleteRestores` | src/pages/UsersPage.tsx:29-40 | deleting the id of a just-created record whose id was new gives back the list from before the create |
| `UserRecords.WithContact` | src/pages/UsersPage.tsx:54 | the object spread `{ ...user, name, email }`: the record gets the new name and email and keeps its id and every other field |
| `UserRecords.WithUpdatedContact` | src/pages/UsersPage.tsx:53-55 | an update keeps the length, the order, every id and every other field; records with the selected id get the new name and email, all other records are unchanged |
| `UserRecords.WithUpdatedContactIdempotent` | src/pages/UsersPage.tsx:53-55 | repeating the same update changes nothing more |
| `UserRecords.UpdateThenDelete` | src/pages/UsersPage.tsx:30-55 | deleting an id after updating it gives the same list as deleting it without the update: an update touches only the records that a delete of that id removes |
| `Pages.UpdateGuard` | src/pages/UsersPage.tsx:51 | the truthiness guard of the update handler: `null` and `Some(0)` selections and empty strings make it false; a negative id with non-empty strings makes it true |
| `Pages.UsersPage.PopupOpen` | src/pages/UsersPage.tsx:107 | the popup condition `selectedUserId !== null`: shown for any selected id, 0 included, hidden with no selection; whenever the update guard holds the popup is shown |
| `Pages.UsersPage.constructor` | src/pages/UsersPage.tsx:7-12 | the initial state is an empty list, empty form strings and no selection, with the popup closed |
| `Pages.UsersPage.FetchUsers` | src/pages/UsersPage.tsx:14-25 | the mount fetch replaces the list on success; on failure it changes nothing |
| `Pages.UsersPage.HandleDeleteUser` | src/pages/UsersPage.tsx:27-35 | always sends a delete for the id; on success the list becomes `WithoutId` of the old list, with no record of that id left, and every other cell is unchanged; on failure nothing changes |
| `Pages.UsersPage.HandleCreateUser` | src/pages/UsersPage.tsx:37-47 | sends the create-form strings; on success the list becomes the old list plus the server's record at the end, adding exactly one record with its id, and the create form is cleared; on failure nothing changes, the form included |
| `Pages.UsersPage.HandleUpdateUser` | src/pages/UsersPage.tsx:49-65 | calls the server iff the id is non-null and non-zero and both strings are non-empty, sending that id, name and email; without a call, or when the call fails, nothing changes; on success the list becomes `WithUpdatedContact` of the old one, the selection is cleared and both update strings are emptied, so the popup is closed |
| `Pages.UsersPage.OpenUpdatePopup` | src/pages/UsersPage.tsx:67-71 | sets the selection, name and email to the arguments and leaves the list and the create form unchanged; the popup is open |
| `Pages.UsersPage.Cancel` | src/pages/UsersPage.tsx:120 | clears the selection only; the update strings keep their values; the popup is closed |
| `Pages.UpdateWithIdZeroIsStuck` | src/pages/UsersPage.tsx:49-71 | after opening the popup for a record with id 0, Update makes no call and the popup stays open, whatever the server would answer |
| `Pages.CreatedRecordIsListedOnce` | src/pages/UsersPage.tsx:37-47 | a successful create whose id is new leaves exactly one record with that id, last in the list, and an empty create form |

## Left out

- Network I/O, the base URL and the axios library (`src/api/users.ts`). Each call is an `Outcome` parameter: a success with the parsed body, or a failure. The HTTP verb and URL are not modelled; the `Request` value names the call and its arguments.
- Console logging on success and on failure. A failed call changes no state, and that is modelled.
- Asynchrony and React scheduling. Each handler is one atomic step. The model therefore leaves out three things: update's use of a possibly stale `users` closure (line 53), responses arriving after unmount, and the ordering of concurrent requests.
- The input `onChange` bindings of the four form fields. The fields are public and may hold any strings when a handler runs.
- Rendering: JSX, styling, the `'N/A'` address fallback (line 87), and the `Link` to `/create-user` (line 77), which matches no route.
- The detail page (`src/pages/UserDetailsPage.tsx`) and routing (`src/App.tsx`). They hold no state transition beyond one fetch and its missing-id guard.
- The server's response to an update is ignored by the page (line 52), so it is an `Outcome<()>` here.
- A record's fields beyond `id`, `name` and `email` are the ones either page displays (`Profile`): the users page shows username, address, phone and website (lines 85-89 of `src/pages/UsersPage.tsx`), the detail page also the company. A server record may carry other fields; no handler touches them, just as with `Profile`.
