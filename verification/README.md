# Sistema Bar — a Dafny model of the front end's core

Sistema Bar is a small React application for a bar's team. It offers a login / sign-up screen, a home page, a
list of posts searchable by title or content, with live comment threads, and an admin panel where
administrators create, edit and delete posts. Firebase (authentication and
Firestore) is the back end. This project models the decisions the front end makes:

- **Routing and the guard** (`Guard`, `Routes`). Which page or redirect each path gives a signed-out
  visitor, a signed-in user and an administrator; that redirects always end
  after at most two hops; and the guard's decision table.
- **The login form** (`Login`). What a submit asks of the authentication service in each
  mode, the Spanish message shown for each authentication error code, the
  heading and hints the error banner picks from that message, and the form's
  state transitions (tabs, "switch to login", dismissing the error, the
  password toggle).
- **The posts page** (`Posts`). The case-insensitive search filter, the single
  open comment panel, and the choice between spinner, empty state and list.
- **The comment thread** (`Comments`). Who may delete a comment and which badge
  it shows, the relative-age buckets, the record a new comment writes with its
  trimmed text, and the live list that each snapshot replaces.
- **The admin panel** (`Admin`). The create / edit form state machine, the
  records that create and update write, the delete confirmation, and the
  "Comentarios" total.

Supporting modules: `Common` holds the user and post records and the author name rule (`displayName || email`).
`Text` holds ECMAScript-style `trim`, ASCII lower-casing and substring search.

Components whose fields change step by step are classes with `modifies this` methods:
`Login.LoginForm`, `Posts.PostsPage`, `Comments.CommentsPanel` and `Admin.AdminPanel`.
The decisions they take are pure functions with lemmas about them. Each
asynchronous handler is one method. The back end's answer is a
parameter (the error code, or whether the write succeeds), and the method returns the
request it sends (`AuthCall`, `NewComment`, `Write`).

## Model

| member | source | states |
|---|---|---|
| Guard.PrivateRoute | src/components/auth/PrivateRoute.jsx:4-15 | no user gives a redirect to `/login`; an admin-only guard renders only for the `admin` role and otherwise sends a signed-in user to `/`; without `adminOnly` (default false) every signed-in user is rendered |
| Guard.PrivateRouteFollowsTable | src/components/auth/PrivateRoute.jsx:7-15 | the guard agrees, for every session and flag, with an explicit table over anonymous / member / administrator and signed-in / admin-only |
| Guard.DefaultGuardIsSignedInOnly | src/components/auth/PrivateRoute.jsx:4 | leaving out `adminOnly` behaves as `adminOnly={false}`, and the role is then irrelevant |
| Routes.AppRoutes | src/App.jsx:10-50 | redirects go only to `/` or `/login`; `/login` redirects to `/` exactly when signed in; anonymous visitors are only ever shown the login page; signed-in users never are; the admin page renders only at `/admin` for the admin role; unknown paths redirect to `/` |
| Routes.RouteGuards | src/App.jsx:20-45 | `/` and `/posts` are guarded with `adminOnly` false, `/admin` with `adminOnly` true |
| Routes.RedirectsTerminate | src/App.jsx:15-47 | from every path and session at most two redirects reach a rendered page, and it is the page an independent destination rule names (no redirect loops) |
| Routes.TwoRedirectsNeeded | src/App.jsx:15-47 | an anonymous visitor on an unknown path needs both hops, `/` then `/login` |
| Routes.AdminScenarios | src/App.jsx:38-45 | anonymous visitors at `/admin` go to `/login`; signed-in non-admins go to `/`, where the home page renders |
| Common.AuthorName | src/components/ui/Comments.jsx:52 | `displayName || email`: the display name when it is present and non-empty, the email otherwise (used for comments and for posts, src/pages/AdminPanel.jsx:55) |
| Text.Lower | src/pages/Posts.jsx:46-47 | `toLowerCase` for ASCII letters: same length, each letter `A`-`Z` mapped to its lower case, every other character kept |
| Text.Contains | src/pages/Posts.jsx:46-47 | `includes`: some position of the text starts an occurrence of the fragment |
| Text.ContainsEmpty | src/pages/Posts.jsx:46-47 | every text includes the empty fragment, so an empty search term matches every post |
| Text.Trim | src/components/ui/Comments.jsx:44 | `trim`: drops the leading and then the trailing ECMAScript whitespace; its properties are the three `Text.Trim…` lemmas below |
| Login.ErrorMessage | src/components/auth/Login.jsx:34-55 | the six known `auth/...` codes map to their messages, every other code to the generic message, and no known code yields the generic or the name-length message |
| Login.ErrorMessagesDistinct | src/components/auth/Login.jsx:34-55 | different known codes give different messages, so the banner identifies the error |
| Login.Heading | src/components/auth/Login.jsx:135-140 | the heading is "Error de acceso" exactly when the message contains "Usuario no encontrado" or "Contraseña incorrecta"; "Usuario existente" exactly when it contains neither but contains "ya está registrado"; "Error de validación" exactly when it contains none of the three |
| Login.ShowsCredentialsHint | src/components/auth/Login.jsx:144 | the credentials hint is shown exactly when the message contains "Usuario no encontrado" or "Contraseña incorrecta" |
| Login.OffersSwitchToLogin | src/components/auth/Login.jsx:152 | the "log in instead" button is shown exactly when the message contains "ya está registrado" |
| Login.HeadingOfEachMessage | src/components/auth/Login.jsx:135-163 | for every error code: the user-not-found and wrong-password messages get "Error de acceso" and the credentials hint; the email-in-use message gets "Usuario existente" and the switch-to-login button; every other message, the name-length one included, gets "Error de validación" with neither hint nor button |
| Login.SubmitCall | src/components/auth/Login.jsx:23-30 | login mode always calls login with the typed email and password; sign-up calls sign-up with the three fields exactly when the name has at least 3 characters, and calls nothing otherwise |
| Login.SubmitError | src/components/auth/Login.jsx:20-55 | no call leaves the name-length message; a failing call leaves the message for its code; a successful call leaves no error |
| Login.SignupScenarios | src/components/auth/Login.jsx:26-29 | "Jo" is refused with the name-length message and no call; "John" is sent to sign-up |
| Login.LoginForm.constructor | src/components/auth/Login.jsx:6-12 | the form starts in login mode with empty fields, no error, not loading and the password hidden |
| Login.LoginForm.HandleSubmit | src/components/auth/Login.jsx:16-59 | the call is `SubmitCall` of the fields; before the name check and the call the error has been cleared and loading set (the ghost results read those fields at that point); afterwards the error is `SubmitError` and loading is false; the typed fields and mode are kept |
| Login.LoginForm.SelectTab | src/components/auth/Login.jsx:91-114 | choosing a tab sets the mode and clears the error and the email, password and name fields |
| Login.LoginForm.SwitchToLogin | src/components/auth/Login.jsx:152-163 | offered only for the "already registered" message; it switches to login mode and clears the error, keeping the typed fields |
| Login.LoginForm.DismissError | src/components/auth/Login.jsx:168 | the close button clears the error and nothing else |
| Login.LoginForm.TogglePasswordVisibility | src/components/auth/Login.jsx:242 | the eye button flips password visibility and nothing else |
| Login.LoginForm.SubmitDisabled | src/components/auth/Login.jsx:252 | the submit button is disabled exactly while a call is in flight |
| Text.TrimIsCore | src/components/ui/Comments.jsx:44 | `trim` removes exactly the leading and trailing whitespace: the result is a slice whose both ends are not whitespace, with only whitespace outside it |
| Text.TrimEmptyIffBlank | src/components/ui/Comments.jsx:44 | the trimmed text is empty exactly when the text is all whitespace |
| Text.TrimIdempotent | src/components/ui/Comments.jsx:50 | trimming twice is trimming once |
| Posts.FilterPosts | src/pages/Posts.jsx:45-48 | the result holds exactly the posts whose lower-cased title or content includes the lower-cased term, and is no longer than the input |
| Posts.Matches | src/pages/Posts.jsx:45-48 | a post passes the search when its lower-cased title or its lower-cased content includes the lower-cased term |
| Posts.FilterIsSubsequence | src/pages/Posts.jsx:45-48 | filtering keeps the fetched order |
| Posts.EmptyTermKeepsAll | src/pages/Posts.jsx:45-48 | an empty search keeps every post |
| Posts.FilterIdempotent | src/pages/Posts.jsx:45-48 | filtering the filtered list again changes nothing |
| Posts.NextSelection | src/pages/Posts.jsx:205 | the comment button closes the panel of the open post and opens the pressed post otherwise |
| Posts.ToggleTwice | src/pages/Posts.jsx:205 | pressing the same button twice restores a closed panel or a panel open on that post, and closes a panel open on another post |
| Posts.PageView | src/pages/Posts.jsx:50-146 | the spinner exactly while loading; the list shows the filtered posts when there are some; otherwise the empty state, titled "No se encontraron publicaciones" and offering to clear the search exactly when a term is set |
| Posts.NoPostsMeansEmpty | src/pages/Posts.jsx:121-146 | without a search term "No hay publicaciones" appears exactly when there are no posts, and otherwise all posts are listed |
| Posts.FilterKeepsDistinctIds | src/pages/Posts.jsx:45-48 | filtering a list whose ids are distinct (as Firestore document ids are) keeps them distinct |
| Posts.AtMostOnePanel | src/pages/Posts.jsx:205-231 | in the rendered, filtered list at most one post shows its comment panel: two listed posts that both show it are the same entry |
| Posts.PostsPage.constructor | src/pages/Posts.jsx:14-17 | the page starts loading, with no posts, no panel open and no search |
| Posts.PostsPage.FetchSettled | src/pages/Posts.jsx:24-43 | a successful fetch replaces the list, a failed one keeps it; loading ends either way |
| Posts.PostsPage.ToggleComments | src/pages/Posts.jsx:205 | the selection becomes `NextSelection` of the old one; nothing else changes |
| Posts.PostsPage.SetSearchTerm | src/pages/Posts.jsx:109 | typing sets the term and nothing else |
| Posts.PostsPage.ClearSearch | src/pages/Posts.jsx:135-141 | the empty state's button clears the term and nothing else |
| Posts.PostsPage.ShowsComments | src/pages/Posts.jsx:231 | the comment panel of a post is shown exactly when it is the selected post |
| Comments.BadgesAndDeletion | src/components/ui/Comments.jsx:74-193 | the "Tú" and "Usuario" badges never show together; an admin always sees one; delete is shown exactly when a badge is, so a non-admin may delete exactly their own comments |
| Comments.CanDeleteComment | src/components/ui/Comments.jsx:74-76 | `canDeleteComment`: an admin, or the comment's author |
| Comments.ShowsYouBadge | src/components/ui/Comments.jsx:176-180 | the "Tú" badge: the viewer wrote the comment |
| Comments.ShowsUserBadge | src/components/ui/Comments.jsx:181-185 | the "Usuario" badge: an admin looks at somebody else's comment |
| Comments.DeleteRequest | src/components/ui/Comments.jsx:64-72 | a delete of the comment's id is requested exactly when the viewer may delete it and has confirmed |
| Comments.SecondsBetween | src/components/ui/Comments.jsx:78-81 | the elapsed whole seconds, rounded down |
| Comments.FormatTimeAgo | src/components/ui/Comments.jsx:82-86 | under a minute "hace unos segundos", under an hour whole minutes 1..59, under a day whole hours 1..23, otherwise a date; each count is the floor of the elapsed time |
| Comments.FormatTimeAgoMonotone | src/components/ui/Comments.jsx:82-86 | an older comment never shows a smaller age |
| Comments.CommentRecord | src/components/ui/Comments.jsx:44-54 | nothing is written exactly when the text is blank; otherwise the trimmed, non-empty text is written with the post id, the viewer's uid, the viewer's display name or email, and the current time |
| Comments.StoredContentIsTrimmed | src/components/ui/Comments.jsx:50 | the stored content is already trimmed |
| Comments.SubmitDisabled | src/components/ui/Comments.jsx:127 | the send button is disabled while a write is in flight and while the trimmed text is empty |
| Comments.CommentsPanel.constructor | src/components/ui/Comments.jsx:17-19 | the panel starts with no comments, an empty box, not loading |
| Comments.CommentsPanel.OnSnapshot | src/components/ui/Comments.jsx:31-37 | each snapshot replaces the list with the delivered comments, in order |
| Comments.CommentsPanel.HandleSubmitComment | src/components/ui/Comments.jsx:42-62 | the write is `CommentRecord` of the box; a blank box changes nothing; after a write loading is false and the box is emptied only if the write succeeded; the list is untouched |
| Comments.CommentsPanel.EditComment | src/components/ui/Comments.jsx:113 | typing sets the box and nothing else |
| Comments.CommentsPanel.ShowsMoreButton | src/components/ui/Comments.jsx:235 | "Ver más comentarios" is shown exactly when more than five comments are listed |
| Comments.SnapshotsReplace | src/components/ui/Comments.jsx:31-37 | after two snapshots exactly the second is shown |
| Admin.CreateRecord | src/pages/AdminPanel.jsx:51-58 | a created post carries the form's title and content, the user's uid, display name or else email, the current time, and a comment count of 0 |
| Admin.ApplyUpdate | src/pages/AdminPanel.jsx:75-79 | an update changes title, content and `updatedAt` and keeps every other field |
| Admin.CommentCount | src/pages/AdminPanel.jsx:190 | `post.commentCount || 0`: a missing count reads as zero |
| Admin.TotalComments | src/pages/AdminPanel.jsx:190 | the `reduce` from the left, starting at zero, adding each post's count; its properties are the `Admin.TotalComments…` lemmas below |
| Admin.TotalCommentsAppend | src/pages/AdminPanel.jsx:190 | the total of two lists put together is the sum of their totals |
| Admin.TotalCommentsNonNegative | src/pages/AdminPanel.jsx:190 | non-negative counts give a non-negative total |
| Admin.CreatedPostAddsNoComments | src/pages/AdminPanel.jsx:57 | a newly created post leaves the total unchanged |
| Admin.UpdateKeepsTotal | src/pages/AdminPanel.jsx:75-79 | updating a post leaves the total unchanged |
| Admin.UpdateTouchesOnlyWrittenFields | src/pages/AdminPanel.jsx:75-79 | the update built from the form rewrites only title, content and `updatedAt`, so the comment count is kept |
| Admin.DeleteRequest | src/pages/AdminPanel.jsx:91-100 | a delete of the post's id is requested exactly when the visitor confirms |
| Admin.AdminPanel.constructor | src/pages/AdminPanel.jsx:13-18 | the panel starts loading, with no posts, no form open and an empty form |
| Admin.AdminPanel.FetchSettled | src/pages/AdminPanel.jsx:25-44 | a successful fetch replaces the list, a failed one keeps it; loading ends either way |
| Admin.AdminPanel.FormVisible | src/pages/AdminPanel.jsx:222 | the form is shown while creating or while a post is being edited |
| Admin.AdminPanel.FormTitle | src/pages/AdminPanel.jsx:227 | the form is titled "Editar Publicación" while a post is being edited and "Nueva Publicación" otherwise |
| Admin.AdminPanel.CommentTotal | src/pages/AdminPanel.jsx:190 | the "Comentarios" statistic is `TotalComments` of the current list |
| Admin.AdminPanel.StartEditing | src/pages/AdminPanel.jsx:102-106 | editing a post fills the form from it and closes the create form |
| Admin.AdminPanel.CancelEditing | src/pages/AdminPanel.jsx:108-111 | editing stops and the form is emptied; whether the create form is open is left as it was |
| Admin.AdminPanel.StartCreating | src/pages/AdminPanel.jsx:113-117 | the create form opens empty and no post is being edited |
| Admin.AdminPanel.CloseForm | src/pages/AdminPanel.jsx:229-233 | the close button hides the form, stops editing and empties it |
| Admin.AdminPanel.EditForm | src/pages/AdminPanel.jsx:245-268 | typing sets the form's title and content and nothing else |
| Admin.AdminPanel.Submit | src/pages/AdminPanel.jsx:240 | submitting updates when a post is being edited and creates otherwise |
| Admin.AdminPanel.HandleCreatePost | src/pages/AdminPanel.jsx:46-68 | the write is `CreateRecord` of the form; a success closes and empties the form, a failure keeps it; the form is never both creating and editing |
| Admin.AdminPanel.HandleUpdatePost | src/pages/AdminPanel.jsx:70-89 | the write updates the edited post's id with the form's title and content and the time; a success stops editing and empties the form, a failure keeps it; with no post being edited the handler fails before writing and nothing changes |

## Left out

- Authentication state is not part of this model. It is the `AuthContext` provider and the role lookup behind `useAuth`, which the source does not include. The current user, their role and the `isAdmin` flag are inputs.
- Firebase calls (`signup`, `login`, `addDoc`, `updateDoc`, `deleteDoc`, `getDocs`, `onSnapshot`) are not executed. Each handler returns the request it would send, and the back end's answer is a parameter. The store's `orderBy("createdAt", "desc")` ordering is the store's own, so delivered lists are taken as given.
- Asynchronous interleaving is not modelled. Each handler runs to completion in one step, so a second submit while a request is in flight falls outside the model. The comment subscription's set-up and unsubscribe, and its `if (!postId) return` guard, are not modelled either; `OnSnapshot` stands for each delivery.
- `Posts.PostsPage.FetchSettled` and `Admin.AdminPanel.FetchSettled` model the settling of the fetch started when the component mounts, not the mount itself. The admin panel's re-fetch after each create, update and delete is this same step.
- `window.confirm` is the parameter `confirmed`. `console.error` logging is left out.
- Router matching is plain string equality. React Router's case-insensitive and trailing-slash matching is not modelled.
- `Text.Lower` lower-cases ASCII letters only, not the full Unicode `toLowerCase`.
- `Login.SubmitCall` counts characters, whereas `String.length` counts UTF-16 code units. The two differ only for names outside the Basic Multilingual Plane.
- `Comments.SecondsBetween` takes instants in milliseconds. Parsing the stored date and invalid (NaN) dates are not modelled. The locale date shown after a day is the abstract `ShortDate`.
- The plain setters of the login form's email, password and name inputs (src/components/auth/Login.jsx:194, 215, 235) are single-field assignments and have no method of their own.
- Markup, styling, icons, the hard-coded statistics cards and the "Ver más comentarios" button's effect are not modelled. `Comments.CommentsPanel.ShowsMoreButton` states only when the button is shown.
- The home page (src/pages/Home.jsx) and the Firebase configuration (src/services/firebase.js) are not part of this model.
- Posts whose title or content is missing are not modelled (they would make the filter throw). Every post field is a string.
