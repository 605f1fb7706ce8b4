# Feedback client: session, screens and the feedback list

A model of the logic inside the screens of a React Native feedback client
backed by Firebase. Users register and sign in. They send feedback: a star
rating and a comment. They see their own feedback, newest first.

The model covers:

- **Session store** (`AuthContext`): a class with one nullable `profile`
  cell. It starts empty and `SetProfile` replaces it wholesale. `UseAuth`
  fails outside a provider.
- **Rating widget** (`Rating`): pressing star `i` reports `i + 1`. Star `k`
  is filled iff `k <= value`. A value `v` fills `min(max(v, 0), 5)` stars.
- **Feedback list** (`FeedbackList`): each snapshot document is mapped to a
  display record. A `createdAt` without `toDate` becomes the epoch. The
  records are sorted by date, newest first, with the engine's stable sort,
  and the result replaces the whole list. The proofs show that the result
  is sorted, is a permutation of the mapped documents, and keeps
  snapshot order among equal dates. They also show that any stable
  newest-first sort gives exactly this list, so the result does not depend
  on the engine's sort algorithm. The screen is a class whose listener stops
  at cleanup and at sign-out.
- **Feedback form** (`FeedbackForm`): three ordered guards, and the first
  failure wins: a profile is present, `rating >= 1`, and
  `comment.length >= 10`. Then one write, and `loading` is raised. When
  the write settles, a success resets the form and moves to the list.
  `loading` drops on both paths. Pressing again while `loading` is ignored.
- **Registration** and **login** screens (`RegisterScreen`, `LoginScreen`):
  ordered guards, then the remote outcomes arrive as parameters. They decide
  which documents are written, whether the session's profile is set, and
  which route comes next.
- **Navigation** (`Navigation`): the four routes `Login`, `Register`,
  `Form` and `List`, starting at `Login`, and the table of transitions the
  screens issue. Every screen method that navigates states its route
  through that table (`Step`). The table proves that the list and the form
  are reachable only after a successful login that no later sign-out has
  undone. This holds of the route table, not of the navigator's stack of
  mounted screens (see "## Left out").

Each `async` handler is split into one method per step. The press runs the
guards and issues the first remote call. Each later method receives the
outcome of one awaited call. This way the `loading` flag is visible between
the steps. Remote calls are never executed. Their results (`AuthResult`,
`FetchResult`, a write's success flag, a snapshot's documents) are
parameters, and the requests the screens issue are recorded in sequence
fields (`writes`, `accountRequests`, `profileWrites`, `signInRequests`,
`profileReads`).

Behaviour of the code a reader may not expect:

- Pending (null) timestamps become the epoch, so they sort **last**, not first.
- There is no de-duplication and no id tie-break; equal dates keep snapshot order.
- Ratings in the list are copied unchecked, not dropped when out of range.
- The comment is not trimmed: ten blanks pass.
- The form has no upper bound on the rating. The bound cannot be reached,
  because the form's rating only comes from the widget (1..5) or the reset
  (0). `FeedbackFormScreen.Valid` proves that every write carries a rating
  in 1..5.
- Sign-out does not clear the session's profile. Only a new login replaces it.
- A snapshot delivery error has no handler, so no "degraded" signal exists.
  The list keeps its last value.

## Model

| member | source | states |
|---|---|---|
| `AuthContext.LevelName` | src/contexts/AuthContext.tsx:7 | an access level is `'user'` or `'admin'`, and each name belongs to exactly one level |
| `AuthContext.AuthStore.constructor` | src/contexts/AuthContext.tsx:18 | the profile starts null |
| `AuthContext.AuthStore.SetProfile` | src/contexts/AuthContext.tsx:10-20 | the profile becomes exactly the given one; nothing of the old one survives |
| `AuthContext.UseAuth` | src/contexts/AuthContext.tsx:26-29 | succeeds iff a provider exists and then returns it; otherwise fails with the provider message |
| `Rating.Stars` | src/components/Rating.tsx:40 | five stars numbered 1..5 from left to right |
| `Rating.PressValue` | src/components/Rating.tsx:21-41 | pressing the star at index `i` reports that star's number, which is always in 1..5 |
| `Rating.FilledCountOfConsecutive` | src/components/Rating.tsx:44-46 | over stars numbered 1..n, the stars with `star <= value` number `min(max(value, 0), n)` |
| `Rating.FilledStars` | src/components/Rating.tsx:40-46 | the widget fills `min(max(v, 0), 5)` stars: none for 0, all for 5 |
| `Rating.PressShowsPressed` | src/components/Rating.tsx:35-46 | after pressing star `i`, exactly the stars at indices `0..i` are filled, which is `i + 1` stars |
| `Navigation.SignedInRoutesNeedLogin` | src/navigation/stack.tsx:10-22 | in the route table, starting at `Login`, reaching `List` or `Form` requires a login success that no later sign-out has undone |
| `FeedbackList.MapDocs` | src/screens/FeedbackList.tsx:38-53 | one record per snapshot document, in snapshot order |
| `FeedbackList.NormalizeKeepsFields` | src/screens/FeedbackList.tsx:41-51 | id from the document id; name, imageUrl, rating and comment copied; no `toDate` gives date 0, a timestamp gives its milliseconds |
| `FeedbackList.SortIsOrderedPermutation` | src/screens/FeedbackList.tsx:55 | the sort's output is newest first and a permutation of its input |
| `FeedbackList.SortIsStable` | src/screens/FeedbackList.tsx:55 | records with equal dates keep their input order |
| `FeedbackList.StableOrderIsUnique` | src/screens/FeedbackList.tsx:55 | two newest-first lists with the same records, in the same order, for every date are equal |
| `FeedbackList.NewestFirstIsSortedPermutation` | src/screens/FeedbackList.tsx:38-55 | the published list has one entry per document, is a permutation of the mapped documents and has non-increasing dates |
| `FeedbackList.EntriesComeFromDocs` | src/screens/FeedbackList.tsx:38-55 | every published entry is the normalisation of some snapshot document |
| `FeedbackList.NewestFirstKeepsTies` | src/screens/FeedbackList.tsx:55 | among equal dates the published list keeps snapshot order, because there is no id tie-break |
| `FeedbackList.NewestFirstIsTheStableSort` | src/screens/FeedbackList.tsx:38-55 | any stable newest-first sort of the mapped snapshot is exactly the published list |
| `FeedbackList.PendingSortsAfterStamped` | src/screens/FeedbackList.tsx:41-55 | a record dated at the epoch (no timestamp yet) comes after every record with a positive timestamp |
| `FeedbackList.FeedbackListScreen.Mount` | src/screens/FeedbackList.tsx:29-37 | the list starts empty and the listener is registered |
| `FeedbackList.FeedbackListScreen.OnSnapshot` | src/screens/FeedbackList.tsx:37-58 | while listening, the list becomes the sorted mapping of the new snapshot, whatever it held before; after cleanup it stays as it was |
| `FeedbackList.FeedbackListScreen.Cleanup` | src/screens/FeedbackList.tsx:60 | the listener is removed and the list is kept |
| `FeedbackList.FeedbackListScreen.NewFeedback` | src/screens/FeedbackList.tsx:82-85 | "new feedback" navigates to the form |
| `FeedbackList.FeedbackListScreen.SignOut` | src/screens/FeedbackList.tsx:88-97 | a resolved sign-out moves to `Login` and unmounts the screen, which stops the listener; a failed one changes nothing |
| `FeedbackList.SnapshotAfterSignOut` | src/screens/FeedbackList.tsx:57-60 | a snapshot delivered after this screen's sign-out does not change the list it shows |
| `FeedbackForm.Validate` | src/screens/FeedbackForm.tsx:28-36 | the guards in order: no profile gives unauthenticated; else rating < 1 gives the rating error; else fewer than 10 characters gives the comment error; else it passes; both directions of each case |
| `FeedbackForm.CommentLengthBoundary` | src/screens/FeedbackForm.tsx:34-36 | with no trimming, ten blanks pass and nine characters fail |
| `FeedbackForm.FeedbackFormScreen.constructor` | src/screens/FeedbackForm.tsx:23-25 | rating 0, empty comment, not loading, nothing written |
| `FeedbackForm.FeedbackFormScreen.SelectStar` | src/screens/FeedbackForm.tsx:78 | the widget's reported value becomes the rating |
| `FeedbackForm.FeedbackFormScreen.EditComment` | src/screens/FeedbackForm.tsx:86-87 | the typed text becomes the comment |
| `FeedbackForm.FeedbackFormScreen.Submit` | src/screens/FeedbackForm.tsx:27-47 | ignored while loading; otherwise reports the first failing guard and writes nothing, or raises `loading` and issues exactly one write with the auth uid, the profile's name, the rating and the comment |
| `FeedbackForm.FeedbackFormScreen.WriteSettled` | src/screens/FeedbackForm.tsx:49-57 | `loading` drops; on success rating 0, comment `''` and route `List`; on failure the input is kept and there is no navigation |
| `FeedbackForm.SubmitWithoutProfile` | src/screens/FeedbackForm.tsx:28-30 | with no profile the submission is rejected as unauthenticated and nothing is written |
| `FeedbackForm.DoublePressWritesOnce` | src/screens/FeedbackForm.tsx:38-57 | a second press during the write issues no second write; after success exactly one write exists, the form is empty and the route is `List` |
| `RegisterScreen.CheckFields` | src/screens/RegisterScreen.tsx:40-45 | any empty field gives the fill-all-fields error; only then does a password mismatch give its error; both directions |
| `RegisterScreen.PickerLevels` | src/screens/RegisterScreen.tsx:28-31 | the picker offers exactly the two access levels, whose wire names are `'user'` and `'admin'` |
| `RegisterScreen.RegisterForm.constructor` | src/screens/RegisterScreen.tsx:25-37 | empty fields, access level `user`, not loading, nothing requested |
| `RegisterScreen.RegisterForm.Type` | src/screens/RegisterScreen.tsx:79-140 | the typed text replaces the one field, unless loading makes the inputs read-only |
| `RegisterScreen.RegisterForm.SelectAccessLevel` | src/screens/RegisterScreen.tsx:89-100 | the picked level replaces the current one, unless loading disables the picker |
| `RegisterScreen.RegisterForm.Press` | src/screens/RegisterScreen.tsx:39-48 | ignored while loading; a failing guard requests nothing; otherwise `loading` is raised and one account creation is requested with the email and password |
| `RegisterScreen.RegisterForm.AccountCreated` | src/screens/RegisterScreen.tsx:48-61 | a failure ends the attempt with its message and writes nothing; a credential leads to one user document with the credential's uid and email, the form's name and access level |
| `RegisterScreen.RegisterForm.ProfileWritten` | src/screens/RegisterScreen.tsx:56-62 | `loading` drops; only success navigates to `Login` |
| `LoginScreen.CheckCredentials` | src/screens/LoginScreen.tsx:32-38 | rejected iff the email or the password is empty |
| `LoginScreen.LoginForm.constructor` | src/screens/LoginScreen.tsx:24-27 | empty fields, not loading, nothing requested |
| `LoginScreen.LoginForm.Type` | src/screens/LoginScreen.tsx:86-106 | the typed text replaces the one field, unless loading makes the inputs read-only |
| `LoginScreen.LoginForm.Press` | src/screens/LoginScreen.tsx:31-41 | ignored while loading; an empty field is rejected before any sign-in call; otherwise `loading` is raised and one sign-in is requested |
| `LoginScreen.LoginForm.SignInSettled` | src/screens/LoginScreen.tsx:41-71 | a thrown error ends the attempt and reads nothing; a credential leads to reading `users/{uid}` |
| `LoginScreen.LoginForm.ProfileFetched` | src/screens/LoginScreen.tsx:42-71 | `loading` drops; a found document sets the profile (uid from the credential, name, email and access level from the document) and navigates to `List`; a missing document or an error leaves the profile and the route alone |
| `LoginScreen.RegisterThenSignIn` | src/screens/LoginScreen.tsx:41-62 | signing in after registering with the same credential yields the registered profile and the list |

## Left out

- Firebase calls (`createUserWithEmailAndPassword`, `signInWithEmailAndPassword`, `getDoc`, `setDoc`, `addDoc`, `onSnapshot`, `serverTimestamp`, `signOut`) are foreign calls. Their outcomes are parameters.
- The query filter `where('userId', '==', uid)` on the list is applied by the remote store and cannot be checked on the client.
- The guarantee that the store delivers nothing after unsubscription belongs to the store. The model states it as `OnSnapshot` ignoring snapshots once the listener is gone.
- Toast messages are presentation. Errors are typed values instead.
- The one-second `setTimeout` before `replace('List')` and `replace('Login')` is timing. The model navigates at once.
- The star animations, all `StyleSheet` blocks and JSX layout, `FeedbackCard` (presentation and `toLocaleString`), and font loading and provider wiring in `App.tsx` are presentation.
- React's hook machinery is not modelled. State is plain fields. React applies `setLoading(true)` only on the next render, so a second tap before that render is not represented.
- `Date` objects become integer milliseconds. Timestamps before 1970 are negative, so they sort after pending records, as in the code.
- The rating is `number` in the source and `int` in the model. Fractional values are not represented.
- `comment.length` counts UTF-16 code units; the model counts characters. They differ for characters outside the Basic Multilingual Plane.
- On login the document's `accessLevel` is copied unchecked. The model types it as an access level, so a document holding another string is not represented.
- A credential's email is nullable in the SDK. The model uses a string, which is what email-and-password accounts always have.
- The navigator's stack of mounted screens is not modelled; only the route named by each screen is tracked. This loses a real case. From the stack [List, Form], a successful submit calls `replace('List')` and mounts a second list screen on top of the first. The first list screen stays mounted, and its listener stays subscribed. Sign-out then replaces only the top list screen, so the lower listener survives sign-out. The Android back button or the iOS swipe-back gesture then shows that list with no new login. `Navigation.SignedInRoutesNeedLogin` therefore holds of the route table only, and `FeedbackList.SnapshotAfterSignOut` holds of the one screen that signs out, not of every list screen the app has mounted.
